/** The inline passes against the `replace` calls they stand for: each pass computes what JavaScript's global
    replacement with the source's regular expression and replacer computes. */
module Replacements {
  import opened Text
  import opened Address
  import opened Escaping
  import opened Html
  import opened Regex
  import opened Inline

  /** `[^mark\n]` */
  function Body(mark: char): char -> bool { c => c != mark && c != '\n' }

  function Opposite(mark: char): char -> bool { c => c != mark }

  /** A text, character by character. */
  function Literal(t: string): Regex { if t == "" then Empty else Seq(Class(Is(t[0])), Literal(t[1..])) }

  // --- The expressions -----------------------------------------------------------------------------

  /** `([^m\n]+)` */
  function Inside(mark: char): Regex { Group(AtLeast(1, Body(mark))) }

  /** `m([^m\n]+)m`; with a backtick the code span. */
  function Paired(mark: char): Regex { Seq(Class(Is(mark)), Seq(Inside(mark), Class(Is(mark)))) }

  /** `mm([^m\n]+)mm` */
  function PairedTwice(mark: char): Regex {
    Seq(Class(Is(mark)), Seq(Class(Is(mark)), Seq(Inside(mark), Seq(Class(Is(mark)), Class(Is(mark))))))
  }

  /** `(^|[^m])m([^m\n]+)m` */
  function PairedFree(mark: char): Regex { Seq(Group(Alt(BEGIN, Class(Opposite(mark)))), Paired(mark)) }

  lemma BodyStop(s: string, i: nat, mark: char)
    requires i <= |s|
    ensures Stop(Body(mark), s, i) == i + BodyLength(s[i..], mark)
  {
    var n := BodyLength(s[i..], mark);
    forall k | i <= k < i + n ensures Body(mark)(s[k]) { assert s[k] == s[i..][k - i]; }
    StopIs(Body(mark), s, i, i + n);
  }

  /** `(p+)` before something that cannot begin with a `p`. */
  lemma GroupTry(p: char -> bool, close: Regex, s: string, x: At)
    requires x.pos <= |s|
    requires forall y: At | y.pos < |s| && p(s[y.pos]) :: Try(close, s, y).None?
    ensures var e := Stop(p, s, x.pos);
      Try(Seq(Group(AtLeast(1, p)), close), s, x)
         == if x.pos < e then Try(close, s, At(e, x.marks + [x.pos, e])) else None
  {
    hide *;
    var e := Stop(p, s, x.pos);
    var y := x.(marks := x.marks + [x.pos]);
    GroupSteps(p, close, s, x);
    StopStep(p, s, x.pos);
    if x.pos < e {
      var z := y.(pos := x.pos + 1);
      forall k | z.pos <= k < e ensures Try(Seq(Mark, close), s, z.(pos := k)).None? {
        SeqMark(close, s, z.(pos := k));
      }
      GreedyRun(p, Seq(Mark, close), s, z);
      SeqMark(close, s, z.(pos := e));
      assert y.marks + [e] == x.marks + [x.pos, e];
    }
  }

  lemma GroupSteps(p: char -> bool, close: Regex, s: string, x: At)
    ensures var y := x.(marks := x.marks + [x.pos]);
      Try(Seq(Group(AtLeast(1, p)), close), s, x)
         == if x.pos < |s| && p(s[x.pos])
            then Try(Seq(Many(p), Seq(Mark, close)), s, y.(pos := x.pos + 1)) else None
  {
    hide Try;
    var y := x.(marks := x.marks + [x.pos]);
    SeqGroup(AtLeast(1, p), close, s, x);
    assert AtLeast(1, p) == Seq(Class(p), Many(p)) by { assert AtLeast(0, p) == Many(p); }
    SeqAssoc(Class(p), Many(p), Seq(Mark, close), s, y);
    SeqClass(p, Seq(Many(p), Seq(Mark, close)), s, y);
  }

  /** A text inside marks, before something that begins with the mark. */
  lemma InsideTry(mark: char, close: Regex, s: string, x: At)
    requires x.pos <= |s|
    requires forall y: At | y.pos < |s| && s[y.pos] != mark :: Try(close, s, y).None?
    ensures var e := Stop(Body(mark), s, x.pos);
      Try(Seq(Inside(mark), close), s, x)
         == if x.pos < e then Try(close, s, At(e, x.marks + [x.pos, e])) else None
  {
    hide Try, Group, AtLeast, Stop;
    GroupTry(Body(mark), close, s, x);
  }

  /** One mark, a text, one mark. */
  lemma PairedTry(mark: char, s: string, x: At)
    requires x.pos <= |s|
    ensures var n := SingleLength(s[x.pos..], mark);
      Try(Paired(mark), s, x)
         == if n > 0 && x.pos + n <= |s| then Some(At(x.pos + n, x.marks + [x.pos + 1, x.pos + n - 1])) else None
  {
    hide *;
    PairedIs(mark, s, x);
    IsAll(mark);
    var u := s[x.pos..];
    if x.pos < |s| && s[x.pos] == mark {
      forall y: At | y.pos < |s| && s[y.pos] != mark ensures Try(Class(Is(mark)), s, y).None? {
        ClassTry(Is(mark), s, y);
      }
      var y := x.(pos := x.pos + 1);
      InsideTry(mark, Class(Is(mark)), s, y);
      BodyStop(s, x.pos + 1, mark);
      var e := Stop(Body(mark), s, y.pos);
      ClassTry(Is(mark), s, At(e, x.marks + [y.pos, e]));
      SingleIs(s, x.pos, mark, e);
    } else {
      NoSingle(u, mark);
    }
  }

  lemma PairedIs(mark: char, s: string, x: At)
    ensures Try(Paired(mark), s, x)
         == if x.pos < |s| && s[x.pos] == mark
            then Try(Seq(Inside(mark), Class(Is(mark))), s, x.(pos := x.pos + 1)) else None
  {
    hide Try, Inside;
    SeqClass(Is(mark), Seq(Inside(mark), Class(Is(mark))), s, x);
  }

  lemma SingleIs(s: string, i: nat, mark: char, e: nat)
    requires i < |s| && s[i] == mark && e == i + 1 + BodyLength(s[i + 1..], mark)
    ensures SingleLength(s[i..], mark) == if i + 1 < e < |s| && s[e] == mark then e + 1 - i else 0
  {
    hide BodyLength;
    assert s[i..][1..] == s[i + 1..];
  }

  lemma NoSingle(u: string, mark: char)
    requires u == "" || u[0] != mark
    ensures SingleLength(u, mark) == 0
  {
  }

  /** Two marks, a text, two marks. */
  lemma PairedTwiceTry(mark: char, s: string, x: At)
    requires x.pos <= |s|
    ensures var n := DoubledLength(s[x.pos..], mark);
      Try(PairedTwice(mark), s, x)
         == if n > 0 && x.pos + n <= |s| then Some(At(x.pos + n, x.marks + [x.pos + 2, x.pos + n - 2])) else None
  {
    hide *;
    PairedTwiceIs(mark, s, x);
    if x.pos + 1 < |s| && s[x.pos] == mark && s[x.pos + 1] == mark {
      var close := Seq(Class(Is(mark)), Class(Is(mark)));
      forall y: At | y.pos < |s| && s[y.pos] != mark ensures Try(close, s, y).None? { TwoTry(mark, s, y); }
      var y := x.(pos := x.pos + 2);
      InsideTry(mark, close, s, y);
      BodyStop(s, y.pos, mark);
      var e := Stop(Body(mark), s, y.pos);
      TwoTry(mark, s, At(e, x.marks + [y.pos, e]));
      DoubledIs(s, x.pos, mark, e);
    } else {
      NoDoubled(s, x.pos, mark);
    }
  }

  lemma TwoTry(mark: char, s: string, x: At)
    ensures Try(Seq(Class(Is(mark)), Class(Is(mark))), s, x)
         == if x.pos + 1 < |s| && s[x.pos] == mark && s[x.pos + 1] == mark then Some(x.(pos := x.pos + 2)) else None
  {
    hide *;
    IsAll(mark);
    SeqClass(Is(mark), Class(Is(mark)), s, x);
    ClassTry(Is(mark), s, x.(pos := x.pos + 1));
  }

  lemma PairedTwiceIs(mark: char, s: string, x: At)
    ensures Try(PairedTwice(mark), s, x)
         == if x.pos + 1 < |s| && s[x.pos] == mark && s[x.pos + 1] == mark
            then Try(Seq(Inside(mark), Seq(Class(Is(mark)), Class(Is(mark)))), s, x.(pos := x.pos + 2)) else None
  {
    hide Try, Inside;
    var rest := Seq(Inside(mark), Seq(Class(Is(mark)), Class(Is(mark))));
    SeqClass(Is(mark), Seq(Class(Is(mark)), rest), s, x);
    SeqClass(Is(mark), rest, s, x.(pos := x.pos + 1));
  }

  lemma DoubledIs(s: string, i: nat, mark: char, e: nat)
    requires i + 1 < |s| && s[i] == s[i + 1] == mark && e == i + 2 + BodyLength(s[i + 2..], mark)
    ensures DoubledLength(s[i..], mark)
         == if i + 2 < e && e + 1 < |s| && s[e] == mark && s[e + 1] == mark then e + 2 - i else 0
  {
    hide BodyLength;
    assert s[i..][2..] == s[i + 2..];
  }

  lemma NoDoubled(s: string, i: nat, mark: char)
    requires i <= |s| && !(i + 1 < |s| && s[i] == mark && s[i + 1] == mark)
    ensures DoubledLength(s[i..], mark) == 0
  {
    hide BodyLength;
  }

  /** The start of the text or one character that is no mark, then one mark, a text, one mark. */
  lemma PairedFreeTry(mark: char, s: string, i: nat)
    requires i < |s|
    ensures var n, m := SingleLength(s[i..], mark), SingleLength(s[i + 1..], mark);
      Try(PairedFree(mark), s, At(i, []))
         == if i == 0 && n > 0 && n <= |s| then Some(At(n, [0, 0, 1, n - 1]))
            else if s[i] != mark && m > 0 && i + 1 + m <= |s| then Some(At(i + 1 + m, [i, i + 1, i + 2, i + m]))
            else None
  {
    hide *;
    PairedFreeSteps(mark, s, i);
    OrIs(if i == 0 then Try(Paired(mark), s, At(i, [i, i])) else None,
         if s[i] != mark then Try(Paired(mark), s, At(i + 1, [i, i + 1])) else None);
    PairedTry(mark, s, At(i, [i, i]));
    PairedTry(mark, s, At(i + 1, [i, i + 1]));
    FourMarks(i, i, i + 1, i + SingleLength(s[i..], mark) - 1);
    FourMarks(i, i + 1, i + 2, i + SingleLength(s[i + 1..], mark));
  }

  lemma FourMarks(a: int, b: int, c: int, d: int)
    ensures [a, b] + [c, d] == [a, b, c, d]
  {
  }

  lemma PairedFreeSteps(mark: char, s: string, i: nat)
    requires i < |s|
    ensures Try(PairedFree(mark), s, At(i, []))
         == Or(if i == 0 then Try(Paired(mark), s, At(i, [i, i])) else None,
               if s[i] != mark then Try(Paired(mark), s, At(i + 1, [i, i + 1])) else None)
  {
    hide Try, Paired;
    var p, rest := Opposite(mark), Seq(Mark, Paired(mark));
    SeqGroup(Alt(BEGIN, Class(p)), Paired(mark), s, At(i, []));
    assert [] + [i] == [i];
    var x := At(i, [i]);
    SeqAlt(BEGIN, Class(p), rest, s, x);
    BeginTry(rest, s, x);
    SeqClass(p, rest, s, x);
    SeqMark(Paired(mark), s, x);
    SeqMark(Paired(mark), s, At(i + 1, [i]));
    assert [i] + [i] == [i, i] && [i] + [i + 1] == [i, i + 1];
  }

  lemma BeginTry(b: Regex, s: string, x: At)
    ensures Try(Seq(BEGIN, b), s, x) == if x.pos == 0 then Try(b, s, x) else None
  {
    hide Try, Ends;
    SeqTest(BEGIN.q, b, s, x);
  }

  // --- The emphasis passes -------------------------------------------------------------------------

  /** `open$1close` */
  function Wrap(s: string, open: string, close: string): (At, seq<string>) -> (string, seq<string>) {
    (m, tokens) => (open + Between(s, m, 0, 1) + close, tokens)
  }

  /** `$1open$2close` */
  function WrapSecond(s: string, open: string, close: string): (At, seq<string>) -> (string, seq<string>) {
    (m, tokens) => (Between(s, m, 0, 1) + open + Between(s, m, 2, 3) + close, tokens)
  }

  /** A pass over doubled marks is the replacement with its expression. */
  lemma {:induction false} DoubledReplaces(s: string, i: nat, mark: char, tag: Tag)
    requires i <= |s|
    ensures ReplaceAll(PairedTwice(mark), s, i, [], Wrap(s, OpenText(tag), CloseText(tag)))
         == (Doubled(s[i..], mark, tag), [])
    decreases |s| - i
  {
    hide *;
    var r, sub := PairedTwice(mark), Wrap(s, OpenText(tag), CloseText(tag));
    if i < |s| {
      var n := DoubledLength(s[i..], mark);
      PairedTwiceTry(mark, s, At(i, []));
      DoubledStep(s, i, mark, tag);
      if n > 0 {
        var m := At(i + n, [] + [i + 2, i + n - 2]);
        ReplaceHit(r, s, i, [], sub, m);
        WrapIs(s, m, tag, i + 2, i + n - 2);
        DoubledReplaces(s, i + n, mark, tag);
      } else {
        ReplaceMiss(r, s, i, [], sub);
        DoubledReplaces(s, i + 1, mark, tag);
      }
    } else {
      ReplaceEnd(r, s, [], sub);
      NothingReplaced(mark, tag);
    }
  }

  lemma DoubledStep(s: string, i: nat, mark: char, tag: Tag)
    requires i < |s|
    ensures var n := DoubledLength(s[i..], mark);
      Doubled(s[i..], mark, tag)
         == if n > 0 then OpenText(tag) + s[i + 2..i + n - 2] + CloseText(tag) + Doubled(s[i + n..], mark, tag)
            else [s[i]] + Doubled(s[i + 1..], mark, tag)
  {
    hide *;
    var n := DoubledLength(s[i..], mark);
    DoubledFront(s[i..], mark, tag);
    SuffixOf(s, i, 1);
    if n > 0 { InnerOf(s, i, n, 2); }
  }

  lemma DoubledFront(u: string, mark: char, tag: Tag)
    requires u != ""
    ensures var n := DoubledLength(u, mark);
      Doubled(u, mark, tag)
         == if n > 0 then OpenText(tag) + u[2..n - 2] + CloseText(tag) + Doubled(u[n..], mark, tag)
            else [u[0]] + Doubled(u[1..], mark, tag)
  {
    hide DoubledLength, OpenText, CloseText;
  }

  lemma InnerOf(s: string, i: nat, n: nat, k: nat)
    requires i + n <= |s| && k + k <= n
    ensures s[i..][k..n - k] == s[i + k..i + n - k] && s[i..][n..] == s[i + n..]
  {
  }

  lemma NothingReplaced(mark: char, tag: Tag)
    ensures Doubled("", mark, tag) == "" && Single("", mark, tag, true) == "" == Single("", mark, tag, false)
  {
  }

  lemma WrapIs(s: string, m: At, tag: Tag, a: nat, b: nat)
    requires m.marks == [a, b] && a <= b <= |s|
    ensures Wrap(s, OpenText(tag), CloseText(tag))(m, []) == (OpenText(tag) + s[a..b] + CloseText(tag), [])
  {
    hide OpenText, CloseText;
    BetweenIs(s, m, 0, 1, a, b);
  }

  lemma WrapSecondIs(s: string, m: At, tag: Tag, a: nat, b: nat, c: nat, d: nat)
    requires m.marks == [a, b, c, d] && a <= b <= |s| && c <= d <= |s|
    ensures WrapSecond(s, OpenText(tag), CloseText(tag))(m, []) == (s[a..b] + OpenText(tag) + s[c..d] + CloseText(tag), [])
  {
    hide OpenText, CloseText;
    BetweenIs(s, m, 0, 1, a, b);
    BetweenIs(s, m, 2, 3, c, d);
  }

  lemma SingleFront(u: string, mark: char, tag: Tag, free: bool)
    requires u != ""
    ensures var n := SingleLength(u, mark);
      Single(u, mark, tag, free)
         == if free && n > 0 then OpenText(tag) + u[1..n - 1] + CloseText(tag) + Single(u[n..], mark, tag, false)
            else [u[0]] + Single(u[1..], mark, tag, u[0] != mark)
    ensures SingleLength(u, mark) > 0 ==> u[0] == mark
  {
    hide SingleLength, OpenText, CloseText;
  }

  /** What a pass over single marks does at `i`: a mark at the very start, a mark behind a character that is none, or
      one character more. */
  lemma SingleStep(s: string, i: nat, mark: char, tag: Tag)
    requires i < |s|
    ensures var n, m := SingleLength(s[i..], mark), SingleLength(s[i + 1..], mark);
      Single(s[i..], mark, tag, i == 0)
         == if i == 0 && n > 0
            then OpenText(tag) + s[1..n - 1] + CloseText(tag) + Single(s[n..], mark, tag, false)
            else if s[i] != mark && m > 0
            then [s[i]] + (OpenText(tag) + s[i + 2..i + m] + CloseText(tag) + Single(s[i + 1 + m..], mark, tag, false))
            else [s[i]] + Single(s[i + 1..], mark, tag, s[i] != mark)
  {
    hide *;
    var n, m := SingleLength(s[i..], mark), SingleLength(s[i + 1..], mark);
    SingleFront(s[i..], mark, tag, i == 0);
    SuffixOf(s, i, 1);
    if i == 0 && n > 0 { InnerOf(s, 0, n, 1); }
    if m > 0 {
      SingleFront(s[i + 1..], mark, tag, true);
      InnerOf(s, i + 1, m, 1);
    }
  }

  lemma NothingInFront(s: string)
    ensures "" + s == s
  {
  }

  /** A match at `i` whose first mark is at `k` and which is `n` characters long from there. */
  lemma SingleHit(s: string, i: nat, k: nat, n: nat, mark: char, tag: Tag)
    requires i <= k && k + n <= |s| && n >= 3
    requires Try(PairedFree(mark), s, At(i, [])) == Some(At(k + n, [i, k, k + 1, k + n - 1]))
    requires ReplaceAll(PairedFree(mark), s, k + n, [], WrapSecond(s, OpenText(tag), CloseText(tag)))
          == (Single(s[k + n..], mark, tag, false), [])
    ensures ReplaceAll(PairedFree(mark), s, i, [], WrapSecond(s, OpenText(tag), CloseText(tag)))
         == (s[i..k] + (OpenText(tag) + s[k + 1..k + n - 1] + CloseText(tag) + Single(s[k + n..], mark, tag, false)), [])
  {
    hide *;
    var sub := WrapSecond(s, OpenText(tag), CloseText(tag));
    var hit := At(k + n, [i, k, k + 1, k + n - 1]);
    ReplaceHit(PairedFree(mark), s, i, [], sub, hit);
    WrapSecondIs(s, hit, tag, i, k, k + 1, k + n - 1);
    Regroup(s[i..k], OpenText(tag), s[k + 1..k + n - 1], CloseText(tag), Single(s[k + n..], mark, tag, false));
  }

  lemma Regroup(a: string, b: string, c: string, d: string, e: string)
    ensures (a + b + c + d) + e == a + (b + c + d + e)
    ensures a == "" ==> a + (b + c + d + e) == b + c + d + e
  {
  }

  lemma SkipsAlike(v: string, mark: char, tag: Tag)
    requires SingleLength(v, mark) == 0
    ensures Single(v, mark, tag, true) == Single(v, mark, tag, false)
  {
    hide SingleLength;
  }

  /** A pass over single marks is the replacement with its expression, in which a mark may open at the very start or
      behind a character that is no mark and belongs to no earlier match. */
  lemma {:induction false} SingleReplaces(s: string, i: nat, mark: char, tag: Tag)
    requires i <= |s|
    ensures ReplaceAll(PairedFree(mark), s, i, [], WrapSecond(s, OpenText(tag), CloseText(tag)))
         == (Single(s[i..], mark, tag, i == 0), [])
    decreases |s| - i
  {
    hide *;
    var r, sub := PairedFree(mark), WrapSecond(s, OpenText(tag), CloseText(tag));
    if i < |s| {
      var n, m := SingleLength(s[i..], mark), SingleLength(s[i + 1..], mark);
      PairedFreeTry(mark, s, i);
      SingleStep(s, i, mark, tag);
      if i == 0 && n > 0 {
        SingleReplaces(s, n, mark, tag);
        SingleHit(s, 0, 0, n, mark, tag);
        assert s[0..0] == "";
        NothingInFront(OpenText(tag) + s[1..n - 1] + CloseText(tag) + Single(s[n..], mark, tag, false));
      } else if s[i] != mark && m > 0 {
        SingleReplaces(s, i + 1 + m, mark, tag);
        SingleHit(s, i, i + 1, m, mark, tag);
        assert s[i..i + 1] == [s[i]];
      } else {
        ReplaceMiss(r, s, i, [], sub);
        if s[i] != mark { SkipsAlike(s[i + 1..], mark, tag); }
        SingleReplaces(s, i + 1, mark, tag);
      }
    } else {
      ReplaceEnd(r, s, [], sub);
      NothingReplaced(mark, tag);
    }
  }

  // --- Line breaks ---------------------------------------------------------------------------------

  /** ` {2}\n` */
  const HARD_BREAK: Regex := Seq(Class(Is(' ')), Seq(Class(Is(' ')), Class(Is('\n'))))

  function Always(text: string): (At, seq<string>) -> (string, seq<string>) { (m, tokens) => (text, tokens) }

  lemma HardBreakTry(s: string, i: nat)
    ensures Try(HARD_BREAK, s, At(i, []))
         == if i + 2 < |s| && s[i] == ' ' && s[i + 1] == ' ' && s[i + 2] == '\n' then Some(At(i + 3, [])) else None
  {
    hide Try;
    var last := Class(Is('\n'));
    SeqClass(Is(' '), Seq(Class(Is(' ')), last), s, At(i, []));
    SeqClass(Is(' '), last, s, At(i + 1, []));
    ClassTry(Is('\n'), s, At(i + 2, []));
  }

  lemma HardBreaksFront(u: string)
    ensures HardBreaks("") == ""
    ensures u != "" ==>
      HardBreaks(u) == if |u| >= 3 && u[0] == ' ' && u[1] == ' ' && u[2] == '\n' then Print(Br) + HardBreaks(u[3..])
                       else [u[0]] + HardBreaks(u[1..])
  {
  }

  lemma {:induction false} HardBreaksReplace(s: string, i: nat)
    requires i <= |s|
    ensures ReplaceAll(HARD_BREAK, s, i, [], Always(Print(Br))) == (HardBreaks(s[i..]), [])
    decreases |s| - i
  {
    hide *;
    var sub := Always(Print(Br));
    HardBreaksFront(s[i..]);
    HardBreakTry(s, i);
    AlwaysIs(Print(Br), At(i + 3, []));
    if i == |s| {
      ReplaceEnd(HARD_BREAK, s, [], sub);
    } else if i + 2 < |s| && s[i] == ' ' && s[i + 1] == ' ' && s[i + 2] == '\n' {
      ReplaceHit(HARD_BREAK, s, i, [], sub, At(i + 3, []));
      SuffixOf(s, i, 3);
      HardBreaksReplace(s, i + 3);
    } else {
      ReplaceMiss(HARD_BREAK, s, i, [], sub);
      SuffixOf(s, i, 1);
      HardBreaksReplace(s, i + 1);
    }
  }

  lemma AlwaysIs(text: string, m: At)
    ensures Always(text)(m, []) == (text, [])
  {
  }

  /** `\r\n?` */
  const RETURN: Regex := Seq(Class(Is('\r')), Maybe(Class(Is('\n'))))

  lemma ReturnTry(s: string, i: nat)
    ensures Try(RETURN, s, At(i, []))
         == if i >= |s| || s[i] != '\r' then None
            else if i + 1 < |s| && s[i + 1] == '\n' then Some(At(i + 2, [])) else Some(At(i + 1, []))
  {
    hide Try;
    SeqClass(Is('\r'), Maybe(Class(Is('\n'))), s, At(i, []));
    AltTry(Class(Is('\n')), Empty, s, At(i + 1, []));
    ClassTry(Is('\n'), s, At(i + 1, []));
    EmptyTry(s, At(i + 1, []));
  }

  lemma NormalizeFront(u: string)
    ensures NormalizeNewlines("") == ""
    ensures u != "" ==>
      NormalizeNewlines(u) == if u[0] != '\r' then [u[0]] + NormalizeNewlines(u[1..])
                              else "\n" + NormalizeNewlines(if |u| > 1 && u[1] == '\n' then u[2..] else u[1..])
  {
  }

  /** Line endings are normalised by the replacement with their expression. */
  lemma {:induction false} ReturnsReplace(s: string, i: nat)
    requires i <= |s|
    ensures ReplaceAll(RETURN, s, i, [], Always("\n")) == (NormalizeNewlines(s[i..]), [])
    decreases |s| - i
  {
    hide *;
    var sub := Always("\n");
    NormalizeFront(s[i..]);
    ReturnTry(s, i);
    if i == |s| {
      assert s[i..] == "";
      ReplaceEnd(RETURN, s, [], sub);
    } else if s[i] == '\r' {
      var n := if i + 1 < |s| && s[i + 1] == '\n' then 2 else 1;
      AlwaysIs("\n", At(i + n, []));
      ReplaceHit(RETURN, s, i, [], sub, At(i + n, []));
      SuffixOf(s, i, n);
      ReturnsReplace(s, i + n);
    } else {
      ReplaceMiss(RETURN, s, i, [], sub);
      SuffixOf(s, i, 1);
      ReturnsReplace(s, i + 1);
    }
  }

  // --- Code spans ----------------------------------------------------------------------------------

  /** `createToken` with the escaped code. */
  function SetCodeAside(s: string): (At, seq<string>) -> (string, seq<string>) {
    (m, tokens) => (Placeholder(|tokens|), tokens + ["<code>" + EscapeHtml(Between(s, m, 0, 1)) + "</code>"])
  }

  lemma SetCodeAsideIs(s: string, m: At, tokens: seq<string>, a: nat, b: nat)
    requires m.marks == [a, b] && a <= b <= |s|
    ensures SetCodeAside(s)(m, tokens)
         == (Placeholder(|tokens|), tokens + [OpenText(Code) + EscapeHtml(s[a..b]) + CloseText(Code)])
  {
    CodeTag();
    hide OpenText, CloseText, EscapeHtml, Placeholder;
    BetweenIs(s, m, 0, 1, a, b);
  }

  lemma CodeIsSingle(u: string)
    ensures CodeSpanLength(u) == SingleLength(u, '`')
  {
    hide BodyLength;
  }

  lemma ProtectCodeFront(u: string, tokens: seq<string>)
    ensures ProtectCode("", tokens) == Protected("", tokens)
    ensures var n := CodeSpanLength(u);
      && (u != "" && n > 0 ==>
            var r := ProtectCode(u[n..], tokens + [CodeToken(u[..n])]);
            ProtectCode(u, tokens) == Protected(Placeholder(|tokens|) + r.value, r.tokens))
      && (u != "" && n == 0 ==>
            var r := ProtectCode(u[1..], tokens); ProtectCode(u, tokens) == Protected([u[0]] + r.value, r.tokens))
  {
    hide CodeSpanLength, CodeToken, Placeholder;
  }

  lemma CodeTokenIs(s: string, i: nat, n: nat)
    requires i + n <= |s| && n >= 3
    ensures CodeToken(s[i..][..n]) == OpenText(Code) + EscapeHtml(s[i + 1..i + n - 1]) + CloseText(Code)
  {
    hide OpenText, CloseText, EscapeHtml;
    assert s[i..][..n][1..n - 1] == s[i + 1..i + n - 1];
  }

  /** Protecting code spans is the replacement with their expression. */
  lemma {:induction false} CodeReplaces(s: string, i: nat, tokens: seq<string>)
    requires i <= |s|
    ensures var r := ProtectCode(s[i..], tokens);
      ReplaceAll(Paired('`'), s, i, tokens, SetCodeAside(s)) == (r.value, r.tokens)
    decreases |s| - i
  {
    hide *;
    var r, sub := Paired('`'), SetCodeAside(s);
    ProtectCodeFront(s[i..], tokens);
    if i == |s| {
      ReplaceEnd(r, s, tokens, sub);
    } else {
      var n := CodeSpanLength(s[i..]);
      CodeIsSingle(s[i..]);
      PairedTry('`', s, At(i, []));
      if n > 0 {
        var m := At(i + n, [] + [i + 1, i + n - 1]);
        ReplaceHit(r, s, i, tokens, sub, m);
        SetCodeAsideIs(s, m, tokens, i + 1, i + n - 1);
        CodeTokenIs(s, i, n);
        SuffixOf(s, i, n);
        CodeReplaces(s, i + n, tokens + [CodeToken(s[i..][..n])]);
      } else {
        ReplaceMiss(r, s, i, tokens, sub);
        SuffixOf(s, i, 1);
        CodeReplaces(s, i + 1, tokens);
      }
    }
  }

  // --- Restoring -----------------------------------------------------------------------------------

  /** `TOKEN_PREFIX(\d+)TOKEN_SUFFIX` */
  function Token(prefix: string, suffix: string): Regex {
    Seq(Literal(prefix), Seq(Group(AtLeast(1, IsDigit)), Literal(suffix)))
  }

  function TakeToken(s: string, tokens: seq<string>): (At, seq<string>) -> (string, seq<string>) {
    (m, none) => (Lookup(Between(s, m, 0, 1), tokens), none)
  }

  lemma {:induction false} LiteralTry(t: string, b: Regex, s: string, x: At)
    requires x.pos <= |s|
    ensures Try(Seq(Literal(t), b), s, x) == if t <= s[x.pos..] then Try(b, s, x.(pos := x.pos + |t|)) else None
    decreases |t|
  {
    hide Try;
    if t == "" {
      SeqEmpty(b, s, x);
      assert x.(pos := x.pos + 0) == x;
    } else {
      SeqAssoc(Class(Is(t[0])), Literal(t[1..]), b, s, x);
      SeqClass(Is(t[0]), Seq(Literal(t[1..]), b), s, x);
      PrefixStep(t, s, x.pos);
      if x.pos < |s| && s[x.pos] == t[0] {
        var y := x.(pos := x.pos + 1);
        LiteralTry(t[1..], b, s, y);
        assert y.(pos := y.pos + |t[1..]|) == x.(pos := x.pos + |t|);
      }
    }
  }

  lemma PrefixStep(t: string, s: string, i: nat)
    requires t != "" && i <= |s|
    ensures t <= s[i..] <==> i < |s| && s[i] == t[0] && t[1..] <= s[i + 1..]
  {
    if i < |s| {
      assert s[i..][0] == s[i] && s[i..][1..] == s[i + 1..];
      if s[i] == t[0] && t[1..] <= s[i + 1..] {
        assert t == [t[0]] + t[1..] && s[i..] == [s[i]] + s[i + 1..];
      }
    }
  }

  lemma LiteralAlone(t: string, s: string, x: At)
    requires x.pos <= |s|
    ensures Try(Literal(t), s, x) == if t <= s[x.pos..] then Some(x.(pos := x.pos + |t|)) else None
    decreases |t|
  {
    hide Try;
    if t == "" {
      EmptyTry(s, x);
      assert x.(pos := x.pos + 0) == x;
    } else {
      SeqClass(Is(t[0]), Literal(t[1..]), s, x);
      PrefixStep(t, s, x.pos);
      if x.pos < |s| && s[x.pos] == t[0] {
        var y := x.(pos := x.pos + 1);
        LiteralAlone(t[1..], s, y);
        assert y.(pos := y.pos + |t[1..]|) == x.(pos := x.pos + |t|);
      }
    }
  }

  lemma EmptyTry(s: string, x: At)
    ensures Try(Empty, s, x) == Some(x)
  {
  }

  predicate AreTokens(prefix: string, suffix: string) { prefix == TOKEN_PREFIX && suffix == TOKEN_SUFFIX }

  /** A token of length `n`, if there is one, whose digits begin behind `k` characters. */
  function TokenOutcome(i: nat, k: nat, n: nat): Option<At> {
    if n > k + 1 then Some(At(i + n, [i + k, i + n - 1])) else None
  }

  lemma TokenOutcomeIs(i: nat, k: nat, n: nat)
    ensures TokenOutcome(i, k, n) == if n > k + 1 then Some(At(i + n, [i + k, i + n - 1])) else None
  {
  }

  lemma TokenTry(s: string, i: nat, prefix: string, suffix: string)
    requires i <= |s| && AreTokens(prefix, suffix)
    ensures Try(Token(prefix, suffix), s, At(i, [])) == TokenOutcome(i, |prefix|, PlaceholderLength(s[i..]))
  {
    hide *;
    TokenOutcomeIs(i, |prefix|, PlaceholderLength(s[i..]));
    if prefix <= s[i..] {
      PrefixFits(prefix, s, i);
      var k := i + |prefix|;
      TokenSteps(s, i, k, prefix, suffix);
      var d := Stop(IsDigit, s, k);
      StopRun(IsDigit, s, k);
      SuffixTry(s, At(d, [k, d]), prefix, suffix);
      PlaceholderAt(s, i, k, d, prefix, suffix);
    } else {
      NoToken(s, i, prefix, suffix);
      NoPlaceholder(s[i..], prefix, suffix);
    }
  }

  lemma NoToken(s: string, i: nat, prefix: string, suffix: string)
    requires i <= |s| && !(prefix <= s[i..])
    ensures Try(Token(prefix, suffix), s, At(i, [])).None?
  {
    hide Try, Literal, Group, AtLeast;
    LiteralTry(prefix, Seq(Group(AtLeast(1, IsDigit)), Literal(suffix)), s, At(i, []));
  }

  lemma PrefixFits(t: string, s: string, i: nat)
    requires i <= |s| && t <= s[i..]
    ensures i + |t| <= |s| && s[i..][|t|..] == s[i + |t|..]
  {
  }

  lemma TokenSteps(s: string, i: nat, k: nat, prefix: string, suffix: string)
    requires i <= |s| && prefix <= s[i..] && k == i + |prefix| <= |s| && AreTokens(prefix, suffix)
    ensures var d := Stop(IsDigit, s, k);
      Try(Token(prefix, suffix), s, At(i, [])) == if k < d then Try(Literal(suffix), s, At(d, [k, d])) else None
  {
    hide Try, Literal, IsDigit, Group, AtLeast, Run, Stop, AreTokens;
    LiteralTry(prefix, Seq(Group(AtLeast(1, IsDigit)), Literal(suffix)), s, At(i, []));
    forall y: At | y.pos < |s| && IsDigit(s[y.pos]) ensures Try(Literal(suffix), s, y).None? {
      SuffixTry(s, y, prefix, suffix);
      SuffixIsNoDigit(s[y.pos], prefix, suffix);
    }
    GroupTry(IsDigit, Literal(suffix), s, At(k, []));
    assert [] + [k, Stop(IsDigit, s, k)] == [k, Stop(IsDigit, s, k)];
  }

  lemma SuffixIsNoDigit(c: char, prefix: string, suffix: string)
    requires IsDigit(c) && AreTokens(prefix, suffix)
    ensures [c] != suffix
  {
  }

  lemma SuffixTry(s: string, x: At, prefix: string, suffix: string)
    requires x.pos <= |s| && AreTokens(prefix, suffix)
    ensures Try(Literal(suffix), s, x)
         == if x.pos < |s| && [s[x.pos]] == suffix then Some(x.(pos := x.pos + 1)) else None
  {
    LiteralAlone(suffix, s, x);
    hide Try, Literal;
    var u := s[x.pos..];
    if x.pos < |s| { assert u[0] == s[x.pos] && [u[0]] == u[..1]; }
  }

  lemma PlaceholderAt(s: string, i: nat, k: nat, d: nat, prefix: string, suffix: string)
    requires i <= |s| && prefix <= s[i..] && k == i + |prefix| <= |s| && d == k + Run(IsDigit, s[k..])
    requires AreTokens(prefix, suffix)
    ensures PlaceholderLength(s[i..]) == if k < d < |s| && [s[d]] == suffix then d + 1 - i else 0
  {
    hide IsDigit, TOKEN_PREFIX, TOKEN_SUFFIX, Run;
    var u := s[i..];
    assert u[k - i..] == s[k..];
    if d < |s| { assert u[d - i..d - i + 1] == [s[d]]; }
  }

  lemma NoPlaceholder(u: string, prefix: string, suffix: string)
    requires !(prefix <= u) && AreTokens(prefix, suffix)
    ensures PlaceholderLength(u) == 0
  {
    hide TOKEN_PREFIX, TOKEN_SUFFIX;
  }

  lemma RestoreFront(u: string, tokens: seq<string>, prefix: string, suffix: string)
    requires AreTokens(prefix, suffix)
    ensures Restore("", tokens) == ""
    ensures var n := PlaceholderLength(u); n > 0 ==> |prefix| + 2 <= n <= |u|
    ensures u != "" ==>
      var n := PlaceholderLength(u);
      Restore(u, tokens) == if n > 0 then Lookup(u[|prefix|..n - 1], tokens) + Restore(u[n..], tokens)
                            else [u[0]] + Restore(u[1..], tokens)
  {
    hide PlaceholderLength, Lookup, TOKEN_PREFIX, TOKEN_SUFFIX;
  }

  lemma TakeTokenIs(s: string, tokens: seq<string>, m: At, a: nat, b: nat)
    requires m.marks == [a, b] && a <= b <= |s|
    ensures TakeToken(s, tokens)(m, []) == (Lookup(s[a..b], tokens), [])
  {
    hide Lookup;
    BetweenIs(s, m, 0, 1, a, b);
  }

  /** Restoring is the replacement of the placeholders. */
  lemma {:induction false} RestoreReplaces(s: string, i: nat, tokens: seq<string>, prefix: string, suffix: string)
    requires i <= |s| && AreTokens(prefix, suffix)
    ensures ReplaceAll(Token(prefix, suffix), s, i, [], TakeToken(s, tokens)) == (Restore(s[i..], tokens), [])
    decreases |s| - i
  {
    hide *;
    var r, sub := Token(prefix, suffix), TakeToken(s, tokens);
    RestoreFront(s[i..], tokens, prefix, suffix);
    if i == |s| {
      ReplaceEnd(r, s, [], sub);
    } else {
      var k, n := |prefix|, PlaceholderLength(s[i..]);
      TokenTry(s, i, prefix, suffix);
      TokenOutcomeIs(i, k, n);
      if n > 0 {
        var m := At(i + n, [i + k, i + n - 1]);
        ReplaceHit(r, s, i, [], sub, m);
        TakeTokenIs(s, tokens, m, i + k, i + n - 1);
        assert s[i..][k..n - 1] == s[i + k..i + n - 1];
        SuffixOf(s, i, n);
        RestoreReplaces(s, i + n, tokens, prefix, suffix);
      } else {
        ReplaceMiss(r, s, i, [], sub);
        SuffixOf(s, i, 1);
        RestoreReplaces(s, i + 1, tokens, prefix, suffix);
      }
    }
  }

  // --- Links ---------------------------------------------------------------------------------------

  predicate NoSpace(c: char) { !IsSpace(c) }

  /** `["']` */
  predicate IsQuotation(c: char) { c == '\'' || c == '"' }

  const QUOTE: Regex := Class(IsQuotation)

  lemma QuotationsAreQuotes()
    ensures forall c: char :: IsQuotation(c) <==> IsQuote(c)
  {
  }

  /** `[^)]*["']\)`, behind the opening quote */
  const TITLE_REST: Regex := Seq(Many(Opposite(')')), Seq(QUOTE, Class(Is(')'))))

  /** `\s+["'][^)]*["']` */
  const TITLE: Regex := Seq(AtLeast(1, IsSpace), Seq(QUOTE, Seq(Many(Opposite(')')), QUOTE)))

  /** `(?:\s+["'][^)]*["'])?\)` */
  const LINK_END: Regex := Seq(Maybe(TITLE), Class(Is(')')))

  /** `(\S+?)` and what follows it */
  const URL: Regex := Seq(Group(Seq(Class(NoSpace), Star(Class(NoSpace), true))), LINK_END)

  /** `\[([^\]\n]+)\]\((\S+?)(?:\s+["'][^)]*["'])?\)` */
  const LINK: Regex := Seq(Class(Is('[')), Seq(Inside(']'), Seq(Class(Is(']')), Seq(Class(Is('(')), URL))))

  lemma OppositeIs(mark: char)
    ensures forall c: char :: Opposite(mark)(c) <==> c != mark
  {
  }

  lemma QuoteCloseTry(s: string, x: At)
    ensures Try(Seq(QUOTE, Class(Is(')'))), s, x)
         == if x.pos + 1 < |s| && IsQuote(s[x.pos]) && s[x.pos + 1] == ')' then Some(x.(pos := x.pos + 2)) else None
  {
    QuotationsAreQuotes();
    hide Try, IsQuote, IsQuotation;
    SeqClass(IsQuotation, Class(Is(')')), s, x);
    ClassTry(Is(')'), s, x.(pos := x.pos + 1));
  }

  /** The parenthesis that ends the title is the first one, and the closing quote is right in front of it. */
  lemma TitleRestTry(s: string, x: At)
    requires x.pos <= |s|
    ensures var r := Stop(Opposite(')'), s, x.pos);
      Try(TITLE_REST, s, x) == if x.pos < r < |s| && IsQuote(s[r - 1]) then Some(x.(pos := r + 1)) else None
  {
    hide *;
    OppositeIs(')');
    QuoteIsNoParenthesis();
    var p := Opposite(')');
    var close := Seq(QUOTE, Class(Is(')')));
    var r := Stop(p, s, x.pos);
    TitleRestIs();
    NotPast(p, s, x.pos);
    forall k | x.pos <= k <= r
      ensures Try(close, s, x.(pos := k)) == if k + 1 == r < |s| && IsQuote(s[k]) then Some(x.(pos := r + 1)) else None
    {
      QuoteCloseTry(s, x.(pos := k));
    }
    if x.pos < r < |s| && IsQuote(s[r - 1]) {
      AllBefore(p, s, x.pos, r, r - 1);
      Greedy(p, close, s, x, r - 1);
    } else {
      GreedyFails(p, close, s, x);
    }
  }

  lemma TitleRestIs()
    ensures TITLE_REST == Seq(Many(Opposite(')')), Seq(QUOTE, Class(Is(')'))))
  {
  }

  lemma QuoteIsNoParenthesis()
    ensures !IsQuote(')')
    ensures forall c: char :: IsQuote(c) ==> !IsSpace(c)
  {
  }

  /** A quote, a text and a closing quote before the parenthesis. */
  lemma QuotedTry(s: string, x: At)
    ensures Try(Seq(Seq(QUOTE, Seq(Many(Opposite(')')), QUOTE)), Class(Is(')'))), s, x)
         == if x.pos < |s| && IsQuote(s[x.pos]) then Try(TITLE_REST, s, x.(pos := x.pos + 1)) else None
  {
    QuotationsAreQuotes();
    hide Try, IsQuote, IsQuotation, Many;
    var many, close := Many(Opposite(')')), Class(Is(')'));
    SeqAssoc(QUOTE, Seq(many, QUOTE), close, s, x);
    SeqClass(IsQuotation, Seq(Seq(many, QUOTE), close), s, x);
    SeqAssoc(many, QUOTE, close, s, x.(pos := x.pos + 1));
  }

  lemma TitleTry(s: string, x: At)
    requires x.pos <= |s|
    ensures var e := TitleEnd(s, x.pos);
      Try(Seq(TITLE, Class(Is(')'))), s, x) == if e > 0 then Some(x.(pos := e)) else None
  {
    hide *;
    var q := Stop(IsSpace, s, x.pos);
    TitleStart(s, x);
    QuotedTry(s, x.(pos := q));
    if q < |s| {
      TitleRestTry(s, x.(pos := q + 1));
      TitleEndIs(s, x.pos, q, Stop(Opposite(')'), s, q + 1));
    } else {
      NoTitle(s, x.pos);
    }
  }

  lemma TitleStart(s: string, x: At)
    requires x.pos <= |s|
    ensures var q := Stop(IsSpace, s, x.pos);
      Try(Seq(TITLE, Class(Is(')'))), s, x)
         == if x.pos < q
            then Try(Seq(Seq(QUOTE, Seq(Many(Opposite(')')), QUOTE)), Class(Is(')'))), s, x.(pos := q)) else None
  {
    hide *;
    var quoted, close := Seq(QUOTE, Seq(Many(Opposite(')')), QUOTE)), Class(Is(')'));
    var rest := Seq(quoted, close);
    var q := Stop(IsSpace, s, x.pos);
    TitleIsSpaced(s, x);
    QuoteIsNoParenthesis();
    AtLeastStep(1, IsSpace, rest, s, x);
    AllInOne(IsSpace, s, x.pos);
    StopStep(IsSpace, s, x.pos);
    if x.pos < q {
      var y := x.(pos := x.pos + 1);
      forall k | y.pos <= k < q ensures Try(rest, s, y.(pos := k)).None? { QuotedTry(s, y.(pos := k)); }
      GreedyRun(IsSpace, rest, s, y);
    }
  }

  lemma TitleIsSpaced(s: string, x: At)
    ensures Try(Seq(TITLE, Class(Is(')'))), s, x)
         == Try(Seq(AtLeast(1, IsSpace), Seq(Seq(QUOTE, Seq(Many(Opposite(')')), QUOTE)), Class(Is(')')))), s, x)
  {
    hide Try, Many, AtLeast;
    SeqAssoc(AtLeast(1, IsSpace), Seq(QUOTE, Seq(Many(Opposite(')')), QUOTE)), Class(Is(')')), s, x);
  }

  lemma TitleEndParts(s: string, p: nat, q: nat, r: nat)
    requires p <= |s| && q == p + Run(IsSpace, s[p..]) < |s| && r == q + 1 + Run(c => c != ')', s[q + 1..])
    ensures TitleEnd(s, p) == if p < q && IsQuote(s[q]) && q + 1 < r < |s| && IsQuote(s[r - 1]) then r + 1 else 0
  {
    hide IsSpace, IsQuote, Run;
  }

  lemma TitleEndIs(s: string, p: nat, q: nat, r: nat)
    requires p <= |s| && q == Stop(IsSpace, s, p) < |s| && r == Stop(Opposite(')'), s, q + 1)
    ensures TitleEnd(s, p) == if p < q && IsQuote(s[q]) && q + 1 < r < |s| && IsQuote(s[r - 1]) then r + 1 else 0
  {
    hide *;
    StopRun(IsSpace, s, p);
    NotClosedStop(s, q + 1);
    TitleEndParts(s, p, q, r);
  }

  lemma NoTitle(s: string, p: nat)
    requires p <= |s| && Stop(IsSpace, s, p) == |s|
    ensures TitleEnd(s, p) == 0
  {
    StopRun(IsSpace, s, p);
    hide IsSpace, IsQuote, Stop, Run;
  }

  lemma NotClosedStop(s: string, i: nat)
    requires i <= |s|
    ensures Stop(Opposite(')'), s, i) == i + Run(c => c != ')', s[i..])
  {
    var n := Run(c => c != ')', s[i..]);
    forall k | i <= k < i + n ensures Opposite(')')(s[k]) { assert s[k] == s[i..][k - i]; }
    StopIs(Opposite(')'), s, i, i + n);
  }

  /** Where a link whose address ends at `p` ends, 0 if it does not. */
  function EndAt(s: string, p: nat): nat
    requires p <= |s|
  {
    if TitleEnd(s, p) > 0 then TitleEnd(s, p) else if p < |s| && s[p] == ')' then p + 1 else 0
  }

  lemma LinkEndTry(s: string, x: At)
    requires x.pos <= |s|
    ensures Try(Seq(Mark, LINK_END), s, x)
         == if EndAt(s, x.pos) > 0 then Some(At(EndAt(s, x.pos), x.marks + [x.pos])) else None
  {
    hide Try, TITLE, TitleEnd;
    var y := x.(marks := x.marks + [x.pos]);
    var close := Class(Is(')'));
    SeqMark(LINK_END, s, x);
    SeqAlt(TITLE, Empty, close, s, y);
    TitleTry(s, y);
    SeqEmpty(close, s, y);
    ClassTry(Is(')'), s, y);
  }

  function UrlOutcome(marks: seq<nat>, r: Option<(nat, nat)>): Option<At> {
    match r
    case None => None
    case Some((u, e)) => Some(At(e, marks + [u]))
  }

  lemma UrlEndFront(s: string, p: nat)
    requires p <= |s|
    ensures UrlEnd(s, p)
         == if EndAt(s, p) > 0 then Some((p, EndAt(s, p)))
            else if p < |s| && !IsSpace(s[p]) then UrlEnd(s, p + 1) else None
  {
    hide TitleEnd, IsSpace;
  }

  lemma UrlOutcomeIs(marks: seq<nat>, p: nat, e: nat)
    ensures UrlOutcome(marks, None) == None && UrlOutcome(marks, Some((p, e))) == Some(At(e, marks + [p]))
  {
  }

  /** The address is as short as it can be. */
  lemma {:induction false} UrlLazy(s: string, p: nat, marks: seq<nat>)
    requires p <= |s|
    ensures Try(Seq(Star(Class(NoSpace), true), Seq(Mark, LINK_END)), s, At(p, marks)) == UrlOutcome(marks, UrlEnd(s, p))
    decreases |s| - p
  {
    hide *;
    NoSpaceIs();
    var rest := Seq(Mark, LINK_END);
    ManyStep(NoSpace, true, rest, s, At(p, marks));
    LinkEndTry(s, At(p, marks));
    UrlEndFront(s, p);
    UrlOutcomeIs(marks, p, EndAt(s, p));
    var star := Seq(Star(Class(NoSpace), true), rest);
    var more := if p < |s| && NoSpace(s[p]) then Try(star, s, At(p + 1, marks)) else None;
    OrIs(Try(rest, s, At(p, marks)), more);
    if p < |s| && NoSpace(s[p]) { UrlLazy(s, p + 1, marks); }
  }

  lemma NoSpaceIs()
    ensures forall c: char :: NoSpace(c) <==> !IsSpace(c)
  {
  }

  lemma UrlTry(s: string, x: At)
    requires x.pos <= |s|
    ensures Try(URL, s, x)
         == if x.pos < |s| && !IsSpace(s[x.pos]) then UrlOutcome(x.marks + [x.pos], UrlEnd(s, x.pos + 1)) else None
  {
    UrlSteps(s, x);
    hide *;
    NoSpaceIs();
    if x.pos < |s| { UrlLazy(s, x.pos + 1, x.marks + [x.pos]); }
  }

  lemma UrlSteps(s: string, x: At)
    ensures var y := At(x.pos + 1, x.marks + [x.pos]);
      Try(URL, s, x)
         == if x.pos < |s| && NoSpace(s[x.pos])
            then Try(Seq(Star(Class(NoSpace), true), Seq(Mark, LINK_END)), s, y) else None
  {
    hide Try, LINK_END, NoSpace;
    var one, more := Class(NoSpace), Star(Class(NoSpace), true);
    var y := At(x.pos, x.marks + [x.pos]);
    SeqGroup(Seq(one, more), LINK_END, s, x);
    SeqAssoc(one, more, Seq(Mark, LINK_END), s, y);
    SeqClass(NoSpace, Seq(more, Seq(Mark, LINK_END)), s, y);
  }

  // The recognisers work on what is left of the text; the expressions on positions in all of it.

  lemma TitleEndShifts(s: string, i: nat, p: nat)
    requires i + p <= |s|
    ensures TitleEnd(s, i + p) == if TitleEnd(s[i..], p) > 0 then i + TitleEnd(s[i..], p) else 0
  {
    hide IsSpace, IsQuote;
    var u := s[i..];
    var q := p + Run(IsSpace, u[p..]);
    SuffixOf(s, i, p);
    if q < |u| {
      SuffixOf(s, i, q + 1);
      assert u[q] == s[i + q];
    }
  }

  function Shifted(i: nat, r: Option<(nat, nat)>): Option<(nat, nat)> {
    match r
    case None => None
    case Some((u, e)) => Some((i + u, i + e))
  }

  lemma EndAtShifts(s: string, i: nat, p: nat)
    requires i + p <= |s|
    ensures EndAt(s, i + p) == if EndAt(s[i..], p) > 0 then i + EndAt(s[i..], p) else 0
    ensures p < |s[i..]| ==> s[i..][p] == s[i + p]
  {
    hide TitleEnd;
    TitleEndShifts(s, i, p);
  }

  lemma {:induction false} UrlEndShifts(s: string, i: nat, p: nat)
    requires i + p <= |s|
    ensures UrlEnd(s, i + p) == Shifted(i, UrlEnd(s[i..], p))
    decreases |s| - p
  {
    hide UrlEnd, EndAt, IsSpace;
    EndAtShifts(s, i, p);
    UrlEndFront(s, i + p);
    UrlEndFront(s[i..], p);
    if i + p < |s| && !IsSpace(s[i + p]) { UrlEndShifts(s, i, p + 1); }
  }

  /** The match of a link at `i`, with its label and its address. */
  function LinkOutcome(i: nat, r: Option<Link>): Option<At> {
    match r
    case None => None
    case Some(link) =>
      var first, second := i + 1, i + 3 + |link.text|;
      Some(At(i + link.length, [first, first + |link.text|, second, second + |link.url|]))
  }

  /** From the closing bracket of the label on. */
  lemma AfterLabelTry(s: string, x: At)
    requires x.pos <= |s|
    ensures Try(Seq(Class(Is(']')), Seq(Class(Is('(')), URL)), s, x)
         == if x.pos + 2 < |s| && s[x.pos] == ']' && s[x.pos + 1] == '(' && !IsSpace(s[x.pos + 2])
            then UrlOutcome(x.marks + [x.pos + 2], UrlEnd(s, x.pos + 3)) else None
  {
    hide *;
    IsAll(']');
    IsAll('(');
    SeqClass(Is(']'), Seq(Class(Is('(')), URL), s, x);
    SeqClass(Is('('), URL, s, x.(pos := x.pos + 1));
    if x.pos + 2 <= |s| { UrlTry(s, x.(pos := x.pos + 2)); }
  }

  lemma LinkSteps(s: string, i: nat)
    requires i <= |s|
    ensures Try(LINK, s, At(i, []))
         == if i < |s| && s[i] == '['
            then Try(Seq(Inside(']'), Seq(Class(Is(']')), Seq(Class(Is('(')), URL))), s, At(i + 1, [])) else None
  {
    hide Try, Inside, URL;
    SeqClass(Is('['), Seq(Inside(']'), Seq(Class(Is(']')), Seq(Class(Is('(')), URL))), s, At(i, []));
  }

  lemma LabelIs(s: string, i: nat, e: nat)
    requires i < |s| && s[i] == '[' && e == i + 1 + BodyLength(s[i + 1..], ']')
    ensures LabelLength(s[i..])
         == if i + 1 < e && e + 2 < |s| && s[e] == ']' && s[e + 1] == '(' && !IsSpace(s[e + 2]) then e - i - 1 else 0
  {
    hide BodyLength, IsSpace;
    assert s[i..][1..] == s[i + 1..];
  }

  lemma NoLabel(u: string)
    requires u == "" || u[0] != '['
    ensures LabelLength(u) == 0
  {
  }

  lemma LinkAtIs(s: string, i: nat)
    requires i <= |s|
    ensures var u := s[i..];
      var n := LabelLength(u);
      && (n > 0 ==> n + 3 < |u|)
      && LinkOutcome(i, LinkAt(u))
         == if n == 0 then None else UrlOutcome([i + 1, i + n + 1, i + n + 3], Shifted(i, UrlEnd(u, n + 4)))
  {
    hide LabelLength, UrlEnd;
    var u := s[i..];
    var n := LabelLength(u);
    if n > 0 && UrlEnd(u, n + 4).Some? {
      var end := UrlEnd(u, n + 4).value.0;
      assert |u[1..n + 1]| == n && |u[n + 3..end]| == end - n - 3;
      assert [i + 1, i + n + 1, i + n + 3] + [i + end] == [i + 1, i + n + 1, i + n + 3, i + end];
    }
  }

  lemma LinkTry(s: string, i: nat)
    requires i <= |s|
    ensures Try(LINK, s, At(i, [])) == LinkOutcome(i, LinkAt(s[i..]))
  {
    hide *;
    LinkSteps(s, i);
    LinkAtIs(s, i);
    if i < |s| && s[i] == '[' {
      var close := Seq(Class(Is(']')), Seq(Class(Is('(')), URL));
      forall y: At | y.pos < |s| && s[y.pos] != ']' ensures Try(close, s, y).None? { AfterLabelTry(s, y); }
      InsideTry(']', close, s, At(i + 1, []));
      var e := Stop(Body(']'), s, i + 1);
      BodyStop(s, i + 1, ']');
      LabelIs(s, i, e);
      assert [] + [i + 1, e] == [i + 1, e];
      AfterLabelTry(s, At(e, [i + 1, e]));
      assert [i + 1, e] + [e + 2] == [i + 1, e, e + 2];
      if e + 3 <= |s| { UrlEndShifts(s, i, e + 3 - i); }
    } else {
      NoLabel(s[i..]);
    }
  }

  /** `createToken` with the rendered label, if the address is safe. */
  function SetLinkAside(s: string, depth: nat): (At, seq<string>) -> (string, seq<string>) {
    (m, tokens) =>
      var text, url := Between(s, m, 0, 1), Between(s, m, 2, 3);
      match SafeUrl(url)
      case None => ("[" + text + "](" + url + ")", tokens)
      case Some(target) =>
        var content := if depth < 2 then RenderInline(text, depth + 1) else EscapeHtml(text);
        var anchor := "<a href=\"" + EscapeAttribute(target) + "\" target=\"_blank\" rel=\"noopener noreferrer\">" + content + "</a>";
        (Placeholder(|tokens|), tokens + [anchor])
  }

  lemma SetLinkAsideIs(s: string, m: At, tokens: seq<string>, depth: nat, link: Link)
    requires Between(s, m, 0, 1) == link.text && Between(s, m, 2, 3) == link.url
    ensures SetLinkAside(s, depth)(m, tokens)
         == match SafeUrl(link.url)
            case None => ("[" + link.text + "](" + link.url + ")", tokens)
            case Some(_) => (Placeholder(|tokens|), tokens + [LinkToken(link, depth)])
  {
    if SafeUrl(link.url).Some? { AnchorTags(EscapeAttribute(SafeUrl(link.url).value)); }
    hide SafeUrl, RenderInline, EscapeHtml, Placeholder, LinkOpenText, EscapeAttribute, CloseText, Between;
  }

  lemma LinkGroups(s: string, i: nat)
    requires i <= |s| && LinkAt(s[i..]).Some?
    ensures var link := LinkAt(s[i..]).value;
      var m := LinkOutcome(i, LinkAt(s[i..]));
      && m.Some? && m.value.pos == i + link.length && 0 < link.length <= |s[i..]|
      && Between(s, m.value, 0, 1) == link.text && Between(s, m.value, 2, 3) == link.url
  {
    hide LabelLength, UrlEnd;
    var u := s[i..];
    var n := LabelLength(u);
    var end := UrlEnd(u, n + 4).value.0;
    var m := LinkOutcome(i, LinkAt(u)).value;
    InSuffix(s, i, 1, n + 1);
    InSuffix(s, i, n + 3, end);
    BetweenIs(s, m, 0, 1, i + 1, i + n + 1);
    BetweenIs(s, m, 2, 3, i + n + 3, i + end);
  }

  lemma InSuffix(s: string, i: nat, a: nat, b: nat)
    requires a <= b && i + b <= |s|
    ensures s[i..][a..b] == s[i + a..i + b]
  {
  }

  lemma ProtectLinksFront(u: string, tokens: seq<string>, depth: nat)
    ensures ProtectLinks("", tokens, depth) == Protected("", tokens)
    ensures u != "" ==>
      match LinkAt(u)
      case None =>
        var r := ProtectLinks(u[1..], tokens, depth);
        ProtectLinks(u, tokens, depth) == Protected([u[0]] + r.value, r.tokens)
      case Some(link) =>
        if SafeUrl(link.url).None? then
          var r := ProtectLinks(u[link.length..], tokens, depth);
          ProtectLinks(u, tokens, depth) == Protected("[" + link.text + "](" + link.url + ")" + r.value, r.tokens)
        else
          var r := ProtectLinks(u[link.length..], tokens + [LinkToken(link, depth)], depth);
          ProtectLinks(u, tokens, depth) == Protected(Placeholder(|tokens|) + r.value, r.tokens)
  {
    hide LinkAt, SafeUrl, LinkToken, Placeholder;
  }

  /** Protecting links is the replacement with their expression. */
  lemma {:induction false} LinksReplace(s: string, i: nat, tokens: seq<string>, depth: nat)
    requires i <= |s|
    ensures var r := ProtectLinks(s[i..], tokens, depth);
      ReplaceAll(LINK, s, i, tokens, SetLinkAside(s, depth)) == (r.value, r.tokens)
    decreases |s| - i
  {
    hide *;
    var sub := SetLinkAside(s, depth);
    ProtectLinksFront(s[i..], tokens, depth);
    if i == |s| {
      ReplaceEnd(LINK, s, tokens, sub);
    } else {
      LinkTry(s, i);
      match LinkAt(s[i..])
      case None =>
        NoLinkOutcome(i);
        ReplaceMiss(LINK, s, i, tokens, sub);
        SuffixOf(s, i, 1);
        LinksReplace(s, i + 1, tokens, depth);
      case Some(link) =>
        LinkGroups(s, i);
        var m := LinkOutcome(i, Some(link)).value;
        ReplaceHit(LINK, s, i, tokens, sub, m);
        SetLinkAsideIs(s, m, tokens, depth, link);
        SuffixOf(s, i, link.length);
        LinksReplace(s, i + link.length, sub(m, tokens).1, depth);
    }
  }

  lemma NoLinkOutcome(i: nat)
    ensures LinkOutcome(i, None) == None
  {
  }

  // --- The whole of `renderInline` -----------------------------------------------------------------

  /** `value.replace(r, sub)` with a replacer that sets nothing aside. */
  function Rewrite(r: Regex, s: string, sub: (At, seq<string>) -> (string, seq<string>)): string {
    ReplaceAll(r, s, 0, [], sub).0
  }

  /** The seven passes, in the order of the source. */
  function EmphasisReplacements(s: string): string {
    var v1 := Rewrite(PairedTwice('*'), s, Wrap(s, "<strong>", "</strong>"));
    var v2 := Rewrite(PairedTwice('_'), v1, Wrap(v1, "<strong>", "</strong>"));
    var v3 := Rewrite(PairedTwice('~'), v2, Wrap(v2, "<del>", "</del>"));
    var v4 := Rewrite(PairedFree('*'), v3, WrapSecond(v3, "<em>", "</em>"));
    var v5 := Rewrite(PairedFree('_'), v4, WrapSecond(v4, "<em>", "</em>"));
    var v6 := Rewrite(HARD_BREAK, v5, Always("<br>"));
    Rewrite(Class(Is('\n')), v6, Always(" "))
  }

  /** `renderInline` as the source writes it: protect code spans, protect links, escape, replace, restore. */
  function InlineReplacements(source: string, depth: nat): string {
    if source == "" then ""
    else
      var (value1, tokens1) := ReplaceAll(Paired('`'), source, 0, [], SetCodeAside(source));
      var (value2, tokens2) := ReplaceAll(LINK, value1, 0, tokens1, SetLinkAside(value1, depth));
      var value := EmphasisReplacements(EscapeHtml(value2));
      Rewrite(Token(TOKEN_PREFIX, TOKEN_SUFFIX), value, TakeToken(value, tokens2))
  }

  lemma {:induction false} NewlinesReplace(s: string, i: nat)
    requires i <= |s|
    ensures ReplaceAll(Class(Is('\n')), s, i, [], Always(" ")) == (Replace(s[i..], '\n', " "), [])
    decreases |s| - i
  {
    hide Try;
    ClassTry(Is('\n'), s, At(i, []));
    if i < |s| {
      SuffixOf(s, i, 1);
      NewlinesReplace(s, i + 1);
    }
  }

  /** The seven passes of the model are the seven replacements of the source. */
  lemma EmphasizeReplaces(s: string)
    ensures Emphasize(s) == EmphasisReplacements(s)
  {
    var v1 := Doubled(s, '*', Strong);
    var v2 := Doubled(v1, '_', Strong);
    var v3 := Doubled(v2, '~', Del);
    var v4 := Single(v3, '*', Em, true);
    var v5 := Single(v4, '_', Em, true);
    var v6 := HardBreaks(v5);
    EmphasisTags();
    BreakTag();
    hide Doubled, Single, HardBreaks, Replace, ReplaceAll, Wrap, WrapSecond, Always, HARD_BREAK, OpenText, CloseText, Print;
    DoubledReplaces(s, 0, '*', Strong);
    DoubledReplaces(v1, 0, '_', Strong);
    DoubledReplaces(v2, 0, '~', Del);
    SingleReplaces(v3, 0, '*', Em);
    SingleReplaces(v4, 0, '_', Em);
    HardBreaksReplace(v5, 0);
    NewlinesReplace(v6, 0);
    assert s[0..] == s && v1[0..] == v1 && v2[0..] == v2 && v3[0..] == v3;
    assert v4[0..] == v4 && v5[0..] == v5 && v6[0..] == v6;
  }

  /** The inline renderer is the source's chain of replacements with the source's regular expressions, for every source
      and depth; the replacer of links calls it for the label. */
  lemma InlineReplaces(source: string, depth: nat)
    ensures RenderInline(source, depth) == InlineReplacements(source, depth)
  {
    hide Emphasize, EscapeHtml, Restore, ProtectCode, ProtectLinks, ReplaceAll, SetCodeAside, SetLinkAside, TakeToken,
         EmphasisReplacements, LINK, Token, TOKEN_PREFIX, TOKEN_SUFFIX;
    var code := ProtectCode(source, []);
    var links := ProtectLinks(code.value, code.tokens, depth);
    CodeReplaces(source, 0, []);
    LinksReplace(code.value, 0, code.tokens, depth);
    EmphasizeReplaces(EscapeHtml(links.value));
    var value := Emphasize(EscapeHtml(links.value));
    RestoreReplaces(value, 0, links.tokens, TOKEN_PREFIX, TOKEN_SUFFIX);
    assert source[0..] == source && code.value[0..] == code.value && value[0..] == value;
  }
}
