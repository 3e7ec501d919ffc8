/** The inline passes seen as edits of a sequence of pieces: markers disappear, paired tags appear,
    placeholders stay where they are. */
module InlinePieces {
  import opened Text
  import opened Escaping
  import opened Html
  import opened Inline

  /** The pieces the value consists of between escaping and restoring. */
  predicate Inert(p: Piece) {
    match p
    case Lit(c) => !IsEscaped(c)
    case Ent(c) => IsEscaped(c)
    case Open(t) => t == Strong || t == Del || t == Em
    case Close(t) => t == Strong || t == Del || t == Em
    case Br => true
    case Hole(_) => true
    case _ => false
  }

  predicate AllInert(ps: seq<Piece>) { forall i | 0 <= i < |ps| :: Inert(ps[i]) }

  /** The characters the passes look for. */
  predicate Special(c: char) { c == '*' || c == '_' || c == '~' || c == ' ' || c == '\n' }

  predicate NoSpecial(s: string) { forall i | 0 <= i < |s| :: !Special(s[i]) }

  /** What a piece contributes to the U+E000 characters of the value: a placeholder its index, a stray one -1. */
  function MarkOf(p: Piece): seq<int> {
    if p.Hole? then [p.index as int] else if p == Lit('\U{E000}') then [-1] else []
  }

  function Marks(ps: seq<Piece>): seq<int> {
    if ps == [] then [] else MarkOf(ps[0]) + Marks(ps[1..])
  }

  lemma {:induction false} MarksConcat(a: seq<Piece>, b: seq<Piece>)
    ensures Marks(a + b) == Marks(a) + Marks(b)
  {
    if a == [] {
      assert a + b == b;
    } else {
      assert (a + b)[1..] == a[1..] + b;
      MarksConcat(a[1..], b);
    }
  }

  /** `qs` has the placeholders of `ps` in the same order, and its tags are paired at least as well. */
  ghost predicate Refines(ps: seq<Piece>, qs: seq<Piece>) {
    && Marks(qs) == Marks(ps)
    && forall t: Tag :: Depth(qs, t) == Depth(ps, t) && Low(qs, t) >= Low(ps, t)
  }

  lemma EmptyRefines()
    ensures AllInert([]) && Flatten([]) == "" && Refines([], [])
  {
  }

  lemma RefinesConcat(a: seq<Piece>, b: seq<Piece>, a': seq<Piece>, b': seq<Piece>)
    requires Refines(a, a') && Refines(b, b')
    ensures Refines(a + b, a' + b')
  {
    hide Print, Flatten, Depth, Low, Marks;
    MarksConcat(a, b);
    MarksConcat(a', b');
    forall t: Tag ensures Depth(a' + b', t) == Depth(a + b, t) && Low(a' + b', t) >= Low(a + b, t) {
      DepthConcat(a, b, t);
      DepthConcat(a', b', t);
    }
  }

  /** Markers that a pass consumes. */
  predicate AllMarkers(ps: seq<Piece>) { forall i | 0 <= i < |ps| :: ps[i].Lit? && Special(ps[i].c) }

  lemma {:induction false} MarkersAreNeutral(ps: seq<Piece>)
    requires AllMarkers(ps)
    ensures Marks(ps) == [] && forall t: Tag :: Depth(ps, t) == 0 && Low(ps, t) == 0
  {
    if ps != [] {
      MarkersAreNeutral(ps[1..]);
      assert MarkOf(ps[0]) == [];
      forall t: Tag ensures Depth(ps, t) == 0 && Low(ps, t) == 0 {
        assert Depth(ps[1..], t) == 0 && Low(ps[1..], t) == 0;
      }
    }
  }

  lemma OpenDepth(body: seq<Piece>, tag: Tag, t: Tag)
    ensures var e := if t == tag then 1 else 0;
      && Depth([Open(tag)] + body, t) == e + Depth(body, t)
      && Low([Open(tag)] + body, t) == Min(0, e + Low(body, t))
  {
    assert ([Open(tag)] + body)[1..] == body;
  }

  lemma CloseDepth(front: seq<Piece>, tag: Tag, t: Tag)
    ensures var e := if t == tag then 1 else 0;
      && Depth(front + [Close(tag)], t) == Depth(front, t) - e
      && Low(front + [Close(tag)], t) == Min(Low(front, t), Depth(front, t) - e)
  {
    LowBelowDepth(front, t);
    DepthConcat(front, [Close(tag)], t);
    DepthOne(Close(tag), t);
  }

  lemma TagPairDepth(body: seq<Piece>, tag: Tag, t: Tag)
    ensures var all := [Open(tag)] + body + [Close(tag)]; Depth(all, t) == Depth(body, t) && Low(all, t) >= Low(body, t)
  {
    hide Depth, Low;
    OpenDepth(body, tag, t);
    CloseDepth([Open(tag)] + body, tag, t);
    LowBelowDepth(body, t);
  }

  lemma TagsHaveNoMarks(tag: Tag)
    ensures Marks([Open(tag)]) == [] && Marks([Close(tag)]) == []
  {
  }

  lemma TagPairIsNeutral(body: seq<Piece>, tag: Tag)
    ensures Refines(body, [Open(tag)] + body + [Close(tag)])
  {
    hide Depth, Low, Marks;
    var all := [Open(tag)] + body + [Close(tag)];
    MarksConcat([Open(tag)] + body, [Close(tag)]);
    MarksConcat([Open(tag)], body);
    TagsHaveNoMarks(tag);
    forall t: Tag ensures Depth(all, t) == Depth(body, t) && Low(all, t) >= Low(body, t) { TagPairDepth(body, tag, t); }
  }

  /** Replacing the markers around `body` by a pair of tags. */
  lemma WrapRefines(left: seq<Piece>, body: seq<Piece>, right: seq<Piece>, tag: Tag)
    requires AllMarkers(left) && AllMarkers(right)
    ensures Refines(left + body + right, [Open(tag)] + body + [Close(tag)])
  {
    hide Print, Flatten, Depth, Low, Marks;
    TagPairIsNeutral(body, tag);
    MarkersAreNeutral(left);
    MarkersAreNeutral(right);
    MarksConcat(left + body, right);
    MarksConcat(left, body);
    forall t: Tag ensures Depth(left + body + right, t) == Depth(body, t) && Low(left + body + right, t) == Low(body, t) {
      DepthConcat(left + body, right, t);
      DepthConcat(left, body, t);
      LowBelowDepth(body, t);
    }
  }

  lemma {:induction false} LowBelowDepth(ps: seq<Piece>, t: Tag)
    ensures Low(ps, t) <= Depth(ps, t)
  {
    if ps != [] { LowBelowDepth(ps[1..], t); }
  }

  // --- Where the characters of the value come from -------------------------------------------------

  lemma {:induction false} DecimalDigits(n: nat)
    ensures Decimal(n) != "" && forall i | 0 <= i < |Decimal(n)| :: IsDigit(Decimal(n)[i])
  {
    if n >= 10 { DecimalDigits(n / 10); }
  }

  lemma NameIsQuiet(t: Tag, name: string)
    requires t == Strong || t == Del || t == Em
    requires name == Name(t)
    ensures NoSpecial(name) && forall i | 0 <= i < |name| :: 'a' <= name[i] <= 'z'
  {
  }

  lemma EntityIsQuiet(c: char, s: string)
    requires IsEscaped(c) && s == Entity(c)
    ensures |s| > 3 && s[0] == '&' && NoSpecial(s) && '\U{E000}' !in s
  {
  }

  lemma TagIsQuiet(t: Tag, name: string, s: string)
    requires t == Strong || t == Del || t == Em
    requires name == Name(t) && (s == ['<'] + name + ['>'] || s == ['<', '/'] + name + ['>'])
    ensures |s| > 3 && s[0] == '<' && NoSpecial(s) && '\U{E000}' !in s
  {
    NameIsQuiet(t, name);
  }

  lemma PlaceholderIsQuiet(i: nat, prefix: string, s: string)
    requires prefix == TOKEN_PREFIX && s == prefix + Decimal(i) + ['\U{E001}']
    ensures |s| > 3 && s[0] == '\U{E000}' && NoSpecial(s)
  {
    DecimalDigits(i);
    assert NoSpecial(prefix);
  }

  /** Only a literal piece holds a character that a pass looks for. */
  lemma InertPrint(p: Piece, s: string)
    requires Inert(p) && s == Print(p)
    ensures s != ""
    ensures p.Lit? ==> s == [p.c]
    ensures !p.Lit? ==> NoSpecial(s)
    ensures p.Open? || p.Close? || p == Br ==> s[0] == '<'
    ensures p.Ent? ==> s[0] == '&'
    ensures p.Hole? ==> s[0] == '\U{E000}'
    ensures !p.Lit? && !p.Hole? ==> '\U{E000}' !in s
  {
    match p
    case Ent(c) => EntityIsQuiet(c, s);
    case Open(t) => TagIsQuiet(t, Name(t), s);
    case Close(t) => TagIsQuiet(t, Name(t), s);
    case Hole(i) => PlaceholderIsQuiet(i, TOKEN_PREFIX, s);
    case Br => BreakPrint(s);
    case Lit(_) =>
  }

  lemma BreakPrint(s: string)
    requires s == Print(Br)
    ensures s == ['<', 'b', 'r', '>']
  {
  }

  /** A special character at the front is a literal of its own. */
  lemma HeadLit(ps: seq<Piece>)
    requires AllInert(ps) && Flatten(ps) != "" && Special(Flatten(ps)[0])
    ensures ps != [] && ps[0] == Lit(Flatten(ps)[0]) && Flatten(ps[1..]) == Flatten(ps)[1..]
  {
    hide Print;
    InertPrint(ps[0], Print(ps[0]));
  }

  /** The pieces can be cut in front of any special character. */
  lemma {:induction false} CutAt(ps: seq<Piece>, k: nat) returns (j: nat)
    requires AllInert(ps) && k < |Flatten(ps)| && Special(Flatten(ps)[k])
    ensures j <= |ps| && Flatten(ps[..j]) == Flatten(ps)[..k] && Flatten(ps[j..]) == Flatten(ps)[k..]
    decreases |ps|, 0
  {
    hide Print;
    var first := Print(ps[0]);
    InertPrint(ps[0], first);
    if k == 0 {
      j := 0;
      assert ps[0..] == ps;
    } else {
      assert Flatten(ps)[..|first|] == first;
      var i := CutAt'(ps[1..], k - |first|);
      j := i + 1;
      assert ps[..j] == [ps[0]] + ps[1..][..i];
      KeepFlatten(ps[0], ps[1..][..i]);
      assert ps[j..] == ps[1..][i..];
    }
  }

  /** The same, where the cut may also be at the very end. */
  lemma {:induction false} CutAt'(ps: seq<Piece>, k: nat) returns (j: nat)
    requires AllInert(ps) && k <= |Flatten(ps)| && (k < |Flatten(ps)| ==> Special(Flatten(ps)[k]))
    ensures j <= |ps| && Flatten(ps[..j]) == Flatten(ps)[..k] && Flatten(ps[j..]) == Flatten(ps)[k..]
    decreases |ps|, 1
  {
    hide Print;
    if k == |Flatten(ps)| {
      j := |ps|;
      assert ps[..j] == ps;
    } else {
      j := CutAt(ps, k);
    }
  }

  lemma KeepFlatten(p: Piece, rest: seq<Piece>)
    ensures Flatten([p] + rest) == Print(p) + Flatten(rest)
  {
    hide Print;
    assert ([p] + rest)[1..] == rest;
  }

  // --- One lemma for each pass ---------------------------------------------------------------------

  lemma DoubledStep(s: string, mark: char, tag: Tag)
    requires s != "" && s[0] != mark
    ensures Doubled(s, mark, tag) == [s[0]] + Doubled(s[1..], mark, tag)
  {
  }

  lemma {:induction false} DoubledSkips(a: string, b: string, mark: char, tag: Tag)
    requires mark !in a
    ensures Doubled(a + b, mark, tag) == a + Doubled(b, mark, tag)
  {
    hide Doubled;
    if a == [] {
      assert a + b == b;
      assert a + Doubled(b, mark, tag) == Doubled(b, mark, tag);
    } else {
      var s := a + b;
      assert s[0] == a[0] && s[1..] == a[1..] + b;
      DoubledStep(s, mark, tag);
      DoubledSkips(a[1..], b, mark, tag);
      assert [a[0]] + (a[1..] + Doubled(b, mark, tag)) == a + Doubled(b, mark, tag);
    }
  }

  /** Two special characters at the front are two literals. */
  lemma TwoLits(ps: seq<Piece>)
    requires AllInert(ps) && |Flatten(ps)| >= 2 && Special(Flatten(ps)[0]) && Special(Flatten(ps)[1])
    ensures |ps| >= 2 && AllMarkers(ps[..2]) && Flatten(ps[2..]) == Flatten(ps)[2..]
  {
    hide Print;
    HeadLit(ps);
    HeadLit(ps[1..]);
    assert ps[1..][1..] == ps[2..];
  }

  /** The pieces of a match: two markers, the body up to `j`, two markers, and what follows. */
  lemma DoubledMatch(ps: seq<Piece>, s: string, mark: char, n: nat) returns (j: nat)
    requires AllInert(ps) && s == Flatten(ps) && Special(mark) && n == DoubledLength(s, mark) > 0
    ensures 2 <= j <= |ps| - 2 && AllMarkers(ps[..2]) && AllMarkers(ps[j..j + 2])
    ensures Flatten(ps[2..j]) == s[2..n - 2] && Flatten(ps[j + 2..]) == s[n..]
  {
    hide Print, Flatten, Inert;
    TwoLits(ps);
    var i := CutAt(ps[2..], n - 4);
    j := i + 2;
    assert ps[2..][..i] == ps[2..j] && ps[2..][i..] == ps[j..];
    DropTwo(ps[j..], s, n - 2);
    assert ps[j..][2..] == ps[j + 2..] && ps[j..][..2] == ps[j..j + 2];
  }

  lemma DropTwo(ps: seq<Piece>, s: string, k: nat)
    requires AllInert(ps) && k + 2 <= |s| && Flatten(ps) == s[k..] && Special(s[k]) && Special(s[k + 1])
    ensures |ps| >= 2 && AllMarkers(ps[..2]) && Flatten(ps[2..]) == s[k + 2..]
  {
    hide Print;
    TwoLits(ps);
    assert s[k..][2..] == s[k + 2..];
  }

  /** Replacing the markers around `ps[i..j]` by a pair of tags, with the rest already rewritten. */
  lemma WrapTail(ps: seq<Piece>, i: nat, j: nat, k: nat, tag: Tag, tail: seq<Piece>) returns (qs: seq<Piece>)
    requires i <= j <= k <= |ps| && AllInert(ps) && AllMarkers(ps[..i]) && AllMarkers(ps[j..k])
    requires AllInert(tail) && Refines(ps[k..], tail)
    requires tag == Strong || tag == Del || tag == Em
    ensures AllInert(qs) && Refines(ps, qs)
    ensures Flatten(qs) == OpenText(tag) + Flatten(ps[i..j]) + CloseText(tag) + Flatten(tail)
  {
    hide Print, Flatten, Depth, Low, Marks;
    var wrapped := [Open(tag)] + ps[i..j] + [Close(tag)];
    WrapRefines(ps[..i], ps[i..j], ps[j..k], tag);
    assert ps == (ps[..i] + ps[i..j] + ps[j..k]) + ps[k..];
    RefinesConcat(ps[..i] + ps[i..j] + ps[j..k], ps[k..], wrapped, tail);
    PrintWrapped(tag, ps[i..j], tail);
    qs := wrapped + tail;
    assert AllInert(wrapped);
  }

  lemma {:induction false} DoubledRefines(ps: seq<Piece>, mark: char, tag: Tag) returns (qs: seq<Piece>)
    requires AllInert(ps) && Special(mark) && (tag == Strong || tag == Del || tag == Em)
    ensures AllInert(qs) && Flatten(qs) == Doubled(Flatten(ps), mark, tag) && Refines(ps, qs)
    decreases |ps|, 1
  {
    hide Print, Flatten, Depth, Low, Marks, Inert, DoubledLength, Refines, OpenText, CloseText;
    if ps == [] { EmptyRefines(); return []; }
    var s := Flatten(ps);
    var n := DoubledLength(s, mark);
    if n > 0 {
      var j := DoubledMatch(ps, s, mark, n);
      var tail := DoubledRefines(ps[j + 2..], mark, tag);
      qs := WrapTail(ps, 2, j, j + 2, tag, tail);
    } else {
      qs := StepDoubled(ps, mark, tag);
    }
  }

  lemma PrintWrapped(tag: Tag, body: seq<Piece>, tail: seq<Piece>)
    ensures Flatten(([Open(tag)] + body + [Close(tag)]) + tail)
         == OpenText(tag) + Flatten(body) + CloseText(tag) + Flatten(tail)
  {
    assert Print(Open(tag)) == OpenText(tag) && Print(Close(tag)) == CloseText(tag);
    hide Print, Flatten, OpenText, CloseText;
    FlattenConcat([Open(tag)] + body + [Close(tag)], tail);
    FlattenConcat([Open(tag)] + body, [Close(tag)]);
    FlattenConcat([Open(tag)], body);
    FlattenOne(Open(tag));
    FlattenOne(Close(tag));
  }

  lemma KeepHead(p: Piece, rest: seq<Piece>, tail: seq<Piece>)
    requires Refines(rest, tail)
    ensures Refines([p] + rest, [p] + tail)
    ensures Flatten([p] + tail) == Print(p) + Flatten(tail)
  {
    hide Print, Depth, Low, Marks;
    RefinesConcat([p], rest, [p], tail);
    assert ([p] + tail)[1..] == tail;
  }

  /** A first piece that is copied. */
  lemma FirstPiece(ps: seq<Piece>, tail: seq<Piece>) returns (qs: seq<Piece>)
    requires ps != [] && AllInert(ps) && AllInert(tail) && Refines(ps[1..], tail)
    ensures qs == [ps[0]] + tail && AllInert(qs) && Refines(ps, qs) && Flatten(qs) == Print(ps[0]) + Flatten(tail)
  {
    hide Print, Flatten, Inert, Refines;
    KeepHead(ps[0], ps[1..], tail);
    assert [ps[0]] + ps[1..] == ps;
    qs := [ps[0]] + tail;
  }

  lemma DoubledKeeps(p: Piece, rest: string, mark: char, tag: Tag)
    requires Inert(p) && Special(mark) && DoubledLength(Print(p) + rest, mark) == 0
    ensures Doubled(Print(p) + rest, mark, tag) == Print(p) + Doubled(rest, mark, tag)
  {
    InertPrint(p, Print(p));
    hide Print, Inert, DoubledLength;
    var s := Print(p) + rest;
    if p.Lit? {
      assert s[0] == p.c && s[1..] == rest;
    } else {
      hide Doubled;
      DoubledSkips(Print(p), rest, mark, tag);
    }
  }

  /** No match at the front: the first piece is copied. */
  lemma {:induction false} StepDoubled(ps: seq<Piece>, mark: char, tag: Tag) returns (qs: seq<Piece>)
    requires AllInert(ps) && Special(mark) && (tag == Strong || tag == Del || tag == Em)
    requires ps != [] && DoubledLength(Flatten(ps), mark) == 0
    ensures AllInert(qs) && Flatten(qs) == Doubled(Flatten(ps), mark, tag) && Refines(ps, qs)
    decreases |ps|, 0
  {
    FlattenFirst(ps);
    hide Print, Flatten, Doubled, DoubledLength, Refines, Inert;
    var tail := DoubledRefines(ps[1..], mark, tag);
    DoubledKeeps(ps[0], Flatten(ps[1..]), mark, tag);
    qs := FirstPiece(ps, tail);
  }

  lemma FlattenFirst(ps: seq<Piece>)
    requires ps != []
    ensures Flatten(ps) == Print(ps[0]) + Flatten(ps[1..])
  {
  }

  lemma SingleStep(s: string, mark: char, tag: Tag, free: bool)
    requires s != "" && s[0] != mark
    ensures Single(s, mark, tag, free) == [s[0]] + Single(s[1..], mark, tag, true)
  {
  }

  lemma {:induction false} SingleSkips(a: string, b: string, mark: char, tag: Tag, free: bool)
    requires mark !in a && a != ""
    ensures Single(a + b, mark, tag, free) == a + Single(b, mark, tag, true)
  {
    hide Single;
    var s := a + b;
    assert s[0] == a[0] && s[1..] == a[1..] + b;
    SingleStep(s, mark, tag, free);
    if |a| > 1 {
      SingleSkips(a[1..], b, mark, tag, true);
      assert [a[0]] + (a[1..] + Single(b, mark, tag, true)) == a + Single(b, mark, tag, true);
    } else {
      assert a[1..] + b == b && a == [a[0]];
    }
  }

  lemma SingleMatch(ps: seq<Piece>, s: string, mark: char, n: nat) returns (j: nat)
    requires AllInert(ps) && s == Flatten(ps) && Special(mark) && n == SingleLength(s, mark) > 0
    ensures 1 <= j < |ps| && AllMarkers(ps[..1]) && AllMarkers(ps[j..j + 1])
    ensures Flatten(ps[1..j]) == s[1..n - 1] && Flatten(ps[j + 1..]) == s[n..]
  {
    hide Print, Flatten, Inert;
    HeadLit(ps);
    var i := CutAt(ps[1..], n - 2);
    j := i + 1;
    assert ps[1..][..i] == ps[1..j] && ps[1..][i..] == ps[j..];
    DropOne(ps[j..], s, n - 1);
    assert ps[j..][1..] == ps[j + 1..] && ps[j..][..1] == ps[j..j + 1];
  }

  lemma DropOne(ps: seq<Piece>, s: string, k: nat)
    requires AllInert(ps) && k < |s| && Flatten(ps) == s[k..] && Special(s[k])
    ensures ps != [] && AllMarkers(ps[..1]) && Flatten(ps[1..]) == s[k + 1..]
  {
    hide Print;
    HeadLit(ps);
    assert s[k..][1..] == s[k + 1..];
  }

  lemma {:induction false} SingleRefines(ps: seq<Piece>, mark: char, tag: Tag, free: bool) returns (qs: seq<Piece>)
    requires AllInert(ps) && Special(mark) && (tag == Strong || tag == Del || tag == Em)
    ensures AllInert(qs) && Flatten(qs) == Single(Flatten(ps), mark, tag, free) && Refines(ps, qs)
    decreases |ps|, 1
  {
    hide Print, Flatten, Depth, Low, Marks, Inert, SingleLength, Refines, OpenText, CloseText;
    if ps == [] { EmptyRefines(); return []; }
    var s := Flatten(ps);
    var n := SingleLength(s, mark);
    if free && n > 0 {
      var j := SingleMatch(ps, s, mark, n);
      var tail := SingleRefines(ps[j + 1..], mark, tag, false);
      qs := WrapTail(ps, 1, j, j + 1, tag, tail);
    } else {
      qs := StepSingle(ps, mark, tag, free);
    }
  }

  lemma SingleKeeps(p: Piece, rest: string, mark: char, tag: Tag, free: bool)
    requires Inert(p) && Special(mark) && !(free && SingleLength(Print(p) + rest, mark) > 0)
    ensures Single(Print(p) + rest, mark, tag, free) == Print(p) + Single(rest, mark, tag, !(p.Lit? && p.c == mark))
  {
    InertPrint(p, Print(p));
    hide Print, Inert, SingleLength;
    var s := Print(p) + rest;
    if p.Lit? {
      assert s[0] == p.c && s[1..] == rest;
    } else {
      hide Single;
      SingleSkips(Print(p), rest, mark, tag, free);
    }
  }

  lemma {:induction false} StepSingle(ps: seq<Piece>, mark: char, tag: Tag, free: bool) returns (qs: seq<Piece>)
    requires AllInert(ps) && Special(mark) && (tag == Strong || tag == Del || tag == Em)
    requires ps != [] && !(free && SingleLength(Flatten(ps), mark) > 0)
    ensures AllInert(qs) && Flatten(qs) == Single(Flatten(ps), mark, tag, free) && Refines(ps, qs)
    decreases |ps|, 0
  {
    FlattenFirst(ps);
    hide Print, Flatten, Single, SingleLength, Refines, Inert;
    var tail := SingleRefines(ps[1..], mark, tag, !(ps[0].Lit? && ps[0].c == mark));
    SingleKeeps(ps[0], Flatten(ps[1..]), mark, tag, free);
    qs := FirstPiece(ps, tail);
  }

  predicate BreakAt(s: string) { |s| >= 3 && s[0] == ' ' && s[1] == ' ' && s[2] == '\n' }

  lemma HardBreaksStep(s: string)
    requires s != ""
    ensures HardBreaks(s) == if BreakAt(s) then Print(Br) + HardBreaks(s[3..]) else [s[0]] + HardBreaks(s[1..])
  {
    hide Print;
  }

  lemma {:induction false} HardBreaksSkips(a: string, b: string)
    requires ' ' !in a
    ensures HardBreaks(a + b) == a + HardBreaks(b)
  {
    hide HardBreaks;
    if a == [] {
      assert a + b == b && a + HardBreaks(b) == HardBreaks(b);
    } else {
      assert (a + b)[0] == a[0] && (a + b)[1..] == a[1..] + b;
      HardBreaksStep(a + b);
      HardBreaksSkips(a[1..], b);
      assert [a[0]] + (a[1..] + HardBreaks(b)) == a + HardBreaks(b);
    }
  }

  /** The pieces of a hard break: three literals. */
  lemma BreakLits(ps: seq<Piece>)
    requires AllInert(ps) && BreakAt(Flatten(ps))
    ensures |ps| >= 3 && AllMarkers(ps[..3]) && Flatten(ps[3..]) == Flatten(ps)[3..]
  {
    hide Print, Flatten, Inert;
    TwoLits(ps);
    DropOne(ps[2..], Flatten(ps), 2);
    assert ps[2..][1..] == ps[3..] && ps[..3] == ps[..2] + ps[2..][..1];
  }

  lemma {:induction false} HardBreaksRefines(ps: seq<Piece>) returns (qs: seq<Piece>)
    requires AllInert(ps)
    ensures AllInert(qs) && Flatten(qs) == HardBreaks(Flatten(ps)) && Refines(ps, qs)
    decreases |ps|, 1
  {
    hide Print, Flatten, HardBreaks, BreakAt, Inert, Refines, AllMarkers;
    if ps == [] {
      EmptyRefines();
      NothingBreaks();
      return [];
    }
    if BreakAt(Flatten(ps)) {
      BreakLits(ps);
      BreakNotEmpty(Flatten(ps));
      HardBreaksStep(Flatten(ps));
      var tail := HardBreaksRefines(ps[3..]);
      qs := BreakTail(ps, tail);
    } else {
      qs := StepHardBreaks(ps);
    }
  }

  lemma NothingBreaks()
    ensures HardBreaks("") == ""
  {
  }

  lemma BreakNotEmpty(s: string)
    requires BreakAt(s)
    ensures s != ""
  {
  }

  lemma BreakTail(ps: seq<Piece>, tail: seq<Piece>) returns (qs: seq<Piece>)
    requires |ps| >= 3 && AllMarkers(ps[..3]) && AllInert(tail) && Refines(ps[3..], tail)
    ensures AllInert(qs) && Refines(ps, qs) && Flatten(qs) == Print(Br) + Flatten(tail)
  {
    hide Print, Flatten, Depth, Low, Marks;
    assert ps == ps[..3] + ps[3..];
    MarkersAreNeutral(ps[..3]);
    BreakIsNeutral();
    RefinesConcat(ps[..3], ps[3..], [Br], tail);
    qs := [Br] + tail;
    KeepFlatten(Br, tail);
  }

  lemma HardBreaksKeeps(p: Piece, rest: string)
    requires Inert(p) && !BreakAt(Print(p) + rest)
    ensures HardBreaks(Print(p) + rest) == Print(p) + HardBreaks(rest)
  {
    InertPrint(p, Print(p));
    hide Print, Inert, HardBreaks, BreakAt;
    var s := Print(p) + rest;
    if p.Lit? {
      assert s[0] == p.c && s[1..] == rest;
      HardBreaksStep(s);
    } else {
      HardBreaksSkips(Print(p), rest);
    }
  }

  lemma {:induction false} StepHardBreaks(ps: seq<Piece>) returns (qs: seq<Piece>)
    requires AllInert(ps) && ps != [] && !BreakAt(Flatten(ps))
    ensures AllInert(qs) && Flatten(qs) == HardBreaks(Flatten(ps)) && Refines(ps, qs)
    decreases |ps|, 0
  {
    FlattenFirst(ps);
    hide Print, Flatten, HardBreaks, BreakAt, Refines, Inert;
    var tail := HardBreaksRefines(ps[1..]);
    HardBreaksKeeps(ps[0], Flatten(ps[1..]));
    qs := FirstPiece(ps, tail);
  }

  lemma BreakIsNeutral()
    ensures Marks([Br]) == [] && forall t: Tag :: Depth([Br], t) == 0 && Low([Br], t) == 0
  {
    forall t: Tag ensures Depth([Br], t) == 0 && Low([Br], t) == 0 { DepthOne(Br, t); }
  }

  /** A newline becomes a space, every other piece stays. */
  function Softened(p: Piece): Piece { if p == Lit('\n') then Lit(' ') else p }

  lemma SoftenedPiece(p: Piece, first: string)
    requires Inert(p) && first == Print(p)
    ensures Inert(Softened(p)) && Refines([p], [Softened(p)])
    ensures Replace(first, '\n', " ") == Print(Softened(p))
  {
    InertPrint(p, first);
    if p == Lit('\n') {
      ReplaceOne('\n', " ");
      MarkersAreNeutral([Lit('\n')]);
      MarkersAreNeutral([Lit(' ')]);
    } else {
      ReplaceAbsent(first, '\n', " ");
    }
  }

  lemma {:induction false} SoftBreaksRefines(ps: seq<Piece>) returns (qs: seq<Piece>)
    requires AllInert(ps)
    ensures AllInert(qs) && Flatten(qs) == Replace(Flatten(ps), '\n', " ") && Refines(ps, qs)
    decreases |ps|
  {
    if ps == [] { EmptyRefines(); return []; }
    hide Print, Depth, Low, Marks, Refines, Inert;
    var tail := SoftBreaksRefines(ps[1..]);
    SoftenedPiece(ps[0], Print(ps[0]));
    ReplaceConcat(Print(ps[0]), Flatten(ps[1..]), '\n', " ");
    var p := Softened(ps[0]);
    qs := [p] + tail;
    RefinesConcat([ps[0]], ps[1..], [p], tail);
    assert [ps[0]] + ps[1..] == ps;
    KeepFlatten(p, tail);
  }

  /** All seven passes: markers go, pairs of tags come, placeholders stay. */
  lemma EmphasizeRefines(ps: seq<Piece>) returns (qs: seq<Piece>)
    requires AllInert(ps)
    ensures AllInert(qs) && Flatten(qs) == Emphasize(Flatten(ps)) && Refines(ps, qs)
  {
    var q1 := DoubledRefines(ps, '*', Strong);
    var q2 := DoubledRefines(q1, '_', Strong);
    var q3 := DoubledRefines(q2, '~', Del);
    var q4 := SingleRefines(q3, '*', Em, true);
    var q5 := SingleRefines(q4, '_', Em, true);
    var q6 := HardBreaksRefines(q5);
    qs := SoftBreaksRefines(q6);
  }
}
