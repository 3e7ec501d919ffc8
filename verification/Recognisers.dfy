/** The recognisers of `Blocks` against the regular expressions they stand for: each computes exactly what a
    backtracking matcher finds, captured groups included. */
module Recognisers {
  import opened Text
  import opened Regex
  import opened Blocks

  predicate IsBullet(c: char) { c == '-' || c == '*' || c == '+' }

  predicate IsStop(c: char) { c == '.' || c == ')' }

  predicate IsRuleMark(c: char) { c == '-' || c == '*' || c == '_' }

  lemma StopOf(c: char, s: string, i: nat)
    requires i <= |s|
    ensures Stop(Is(c), s, i) == i + RunOf(c, s[i..])
  {
    var n := RunOf(c, s[i..]);
    forall k | i <= k < i + n ensures Is(c)(s[k]) { assert s[k] == s[i..][k - i]; }
    StopIs(Is(c), s, i, i + n);
  }

  lemma SuffixDots(s: string, i: nat, k: nat)
    requires i <= k <= |s| && Dots(s[i..])
    ensures Dots(s[k..])
  {
    forall j | 0 <= j < |s[k..]| ensures !IsLineTerminator(s[k..][j]) { assert s[k..][j] == s[i..][k - i + j]; }
  }

  // --- Ends of lines -------------------------------------------------------------------------------

  /** `\s*$` */
  const SPACE_END: Regex := Seq(Many(IsSpace), END)

  lemma EndTry(s: string, x: At)
    ensures Try(END, s, x) == if x.pos == |s| then Some(x) else None
  {
  }

  lemma SpaceEndTry(s: string, x: At)
    requires x.pos <= |s|
    ensures Try(SPACE_END, s, x) == if AllSpace(s[x.pos..]) then Some(x.(pos := |s|)) else None
  {
    hide Try, END, IsSpace;
    var e := Stop(IsSpace, s, x.pos);
    forall k | x.pos <= k < e ensures Try(END, s, x.(pos := k)).None? { EndTry(s, x.(pos := k)); }
    GreedyRun(IsSpace, END, s, x);
    EndTry(s, x.(pos := e));
    if e == |s| {
      forall j | 0 <= j < |s[x.pos..]| ensures IsSpace(s[x.pos..][j]) { assert s[x.pos..][j] == s[x.pos + j]; }
    } else {
      assert s[x.pos..][e - x.pos] == s[e];
    }
  }

  /** `(.*)$` */
  const DOTS_END: Regex := Seq(Group(Many(DOT)), END)

  lemma DotsEndTry(s: string, x: At)
    requires x.pos <= |s|
    ensures Try(DOTS_END, s, x)
         == if Dots(s[x.pos..]) then Some(At(|s|, x.marks + [x.pos, |s|])) else None
  {
    hide Try, END, IsLineTerminator;
    var y := x.(marks := x.marks + [x.pos]);
    SeqGroup(Many(DOT), END, s, x);
    var e := Stop(DOT, s, x.pos);
    forall k | x.pos <= k <= e
      ensures Try(Seq(Mark, END), s, y.(pos := k)) == if k == |s| then Some(At(k, y.marks + [k])) else None
    {
      SeqMark(END, s, y.(pos := k));
      EndTry(s, At(k, y.marks + [k]));
    }
    GreedyRun(DOT, Seq(Mark, END), s, y);
    assert y.marks + [|s|] == x.marks + [x.pos, |s|];
    DotsFrom(s, x.pos, e);
  }

  lemma DotsFrom(s: string, i: nat, e: nat)
    requires i <= e <= |s| && (forall k | i <= k < e :: DOT(s[k])) && (e < |s| ==> !DOT(s[e]))
    ensures e == |s| <==> Dots(s[i..])
  {
    if e == |s| {
      forall j | 0 <= j < |s[i..]| ensures !IsLineTerminator(s[i..][j]) { assert s[i..][j] == s[i + j]; }
    } else {
      assert s[i..][e - i] == s[e];
    }
  }

  // --- Closing fences: `^\s{0,3}M{3,}\s*$` ---------------------------------------------------------

  function CloserExpression(marker: char): Regex {
    Seq(UpTo(3, IsSpace), Seq(AtLeast(3, Is(marker)), SPACE_END))
  }

  lemma MarksEndTry(marker: char, s: string, x: At)
    requires (marker == '`' || marker == '~') && x.pos <= |s|
    ensures var e := Stop(Is(marker), s, x.pos);
      Try(Seq(AtLeast(3, Is(marker)), SPACE_END), s, x)
         == if e - x.pos >= 3 && AllSpace(s[e..]) then Some(x.(pos := |s|)) else None
  {
    hide Try, IsSpace, SPACE_END;
    var e := Stop(Is(marker), s, x.pos);
    AtLeastStep(3, Is(marker), SPACE_END, s, x);
    NotPast(Is(marker), s, x.pos);
    if e - x.pos >= 3 {
      var y := x.(pos := x.pos + 3);
      StopIs(Is(marker), s, y.pos, e);
      forall k | y.pos <= k < e ensures Try(SPACE_END, s, y.(pos := k)).None? {
        SpaceEndTry(s, y.(pos := k));
        MarkIsNoSpace(marker, s, k);
      }
      GreedyRun(Is(marker), SPACE_END, s, y);
      SpaceEndTry(s, y.(pos := e));
    }
  }

  lemma MarkIsNoSpace(marker: char, s: string, k: nat)
    requires (marker == '`' || marker == '~') && k < |s| && Is(marker)(s[k])
    ensures !IsSpace(s[k]) && !AllSpace(s[k..])
  {
    assert s[k..][0] == s[k];
  }

  lemma MarksAfterSpace(marker: char, line: string, x: At)
    requires (marker == '`' || marker == '~') && x.pos < |line| && IsSpace(line[x.pos])
    ensures Try(Seq(AtLeast(3, Is(marker)), SPACE_END), line, x).None?
  {
    hide Try, IsSpace, SPACE_END, Stop;
    MarksEndTry(marker, line, x);
    SpaceIsNoMark(marker, line, x.pos);
  }

  lemma CloserIs(line: string, marker: char)
    ensures var i := Run(IsSpace, line);
      var e := Stop(Is(marker), line, i);
      FenceClose(line, marker) <==> i <= 3 && e - i >= 3 && AllSpace(line[e..])
  {
    hide IsSpace, AllSpace, Run;
    StopOf(marker, line, Run(IsSpace, line));
    hide Stop, RunOf;
  }

  /** A closing fence is recognised exactly if the expression matches. */
  lemma CloserMatches(line: string, marker: char)
    requires marker == '`' || marker == '~'
    ensures FenceClose(line, marker) <==> Exec(CloserExpression(marker), line).Some?
  {
    hide Exec, Try, IsSpace, SPACE_END, AllSpace, FenceClose, Stop;
    var rest := Seq(AtLeast(3, Is(marker)), SPACE_END);
    forall x: At | x.pos < |line| && IsSpace(line[x.pos]) ensures Try(rest, line, x).None? {
      MarksAfterSpace(marker, line, x);
    }
    Indented(rest, line);
    MarksEndTry(marker, line, At(Run(IsSpace, line), []));
    CloserIs(line, marker);
  }

  lemma SpaceIsNoMark(marker: char, s: string, k: nat)
    requires (marker == '`' || marker == '~') && k < |s| && IsSpace(s[k])
    ensures !Is(marker)(s[k]) && Stop(Is(marker), s, k) == k
  {
    StopIs(Is(marker), s, k, k);
  }

  // --- Opening fences: `^( *)(`{3,}|~{3,})\s*(.*)$` ------------------------------------------------

  const INFO: Regex := Seq(Many(IsSpace), DOTS_END)

  function Marks(marker: char): Regex { AtLeast(3, Is(marker)) }

  const FENCE_MARKS: Regex := Alt(Marks('`'), Marks('~'))

  const OPENER_EXPRESSION: Regex := Seq(Group(Many(Is(' '))), Seq(Group(FENCE_MARKS), INFO))

  /** What the source makes of a match: at most three spaces, the first mark, the info string. */
  function OpenerOf(line: string, m: Option<At>): Option<Fence> {
    if m.None? then None
    else
      var indent := Between(line, m.value, 0, 1);
      var marks := Between(line, m.value, 2, 3);
      if |indent| <= 3 && marks != "" then Some(Fence(marks[0], Between(line, m.value, 4, 5), |indent|)) else None
  }

  lemma InfoTry(s: string, x: At)
    requires x.pos <= |s|
    ensures var e := Stop(IsSpace, s, x.pos);
      Try(INFO, s, x) == if Dots(s[e..]) then Some(At(|s|, x.marks + [e, |s|])) else None
  {
    hide Try, IsSpace, Dots, DOTS_END;
    var e := Stop(IsSpace, s, x.pos);
    DotsEndTry(s, x.(pos := e));
    if Dots(s[e..]) {
      GreedyAll(IsSpace, DOTS_END, s, x);
    } else {
      NotPast(IsSpace, s, x.pos);
      forall k | x.pos <= k <= |s| && AllIn(IsSpace, s, x.pos, k) ensures Try(DOTS_END, s, x.(pos := k)).None? {
        DotsEndTry(s, x.(pos := k));
        if Dots(s[k..]) { SuffixDots(s, k, e); }
      }
      GreedyFails(IsSpace, DOTS_END, s, x);
    }
  }

  /** Marks and an info string, in a line whose marks end at `e`. */
  function MarksOutcome(s: string, x: At, e: nat): Option<At>
    requires e <= |s|
  {
    var w := Stop(IsSpace, s, e);
    if e >= x.pos + 3 && Dots(s[w..]) then Some(At(|s|, x.marks + [e, w, |s|])) else None
  }

  lemma InfoAt(marker: char, s: string, x: At, e: nat, k: nat)
    requires (marker == '`' || marker == '~') && x.pos <= |s| && x.pos + 3 <= k <= e == Stop(Is(marker), s, x.pos)
    ensures var found := Try(Seq(Mark, INFO), s, x.(pos := k));
      (k == e ==> found == MarksOutcome(s, x, e)) && (MarksOutcome(s, x, e).None? ==> found.None?)
  {
    hide Try, IsSpace, Dots, INFO;
    var y := At(k, x.marks + [k]);
    SeqMark(INFO, s, x.(pos := k));
    InfoTry(s, y);
    var w := Stop(IsSpace, s, e);
    assert x.marks + [e] + [w, |s|] == x.marks + [e, w, |s|];
    if k < e {
      MarkIsNoSpace(marker, s, k);
      StopIs(IsSpace, s, k, k);
      if Dots(s[k..]) { SuffixDots(s, k, w); }
    }
  }

  lemma MarksTry(marker: char, s: string, x: At)
    requires (marker == '`' || marker == '~') && x.pos <= |s|
    ensures Try(Seq(Marks(marker), Seq(Mark, INFO)), s, x) == MarksOutcome(s, x, Stop(Is(marker), s, x.pos))
  {
    hide Try, INFO, MarksOutcome;
    var e := Stop(Is(marker), s, x.pos);
    var rest := Seq(Mark, INFO);
    AtLeastStep(3, Is(marker), rest, s, x);
    NotPast(Is(marker), s, x.pos);
    if e >= x.pos + 3 {
      var y := x.(pos := x.pos + 3);
      StopIs(Is(marker), s, y.pos, e);
      forall k | y.pos <= k <= e
        ensures y.(pos := k) == x.(pos := k)
        ensures MarksOutcome(s, x, e).None? ==> Try(rest, s, y.(pos := k)).None?
      {
        InfoAt(marker, s, x, e, k);
      }
      InfoAt(marker, s, x, e, e);
      if MarksOutcome(s, x, e).Some? {
        GreedyAll(Is(marker), rest, s, y);
      } else {
        NotPast(Is(marker), s, y.pos);
        GreedyFails(Is(marker), rest, s, y);
      }
    } else {
      TooFewMarks(s, x, e);
    }
  }

  lemma TooFewMarks(s: string, x: At, e: nat)
    requires e <= |s| && e < x.pos + 3
    ensures MarksOutcome(s, x, e).None?
  {
  }

  /** The first character decides between the two kinds of marks. */
  lemma FenceMarksTry(s: string, x: At)
    requires x.pos <= |s|
    ensures var y := x.(marks := x.marks + [x.pos]);
      Try(Seq(Group(FENCE_MARKS), INFO), s, x)
         == if x.pos < |s| && (s[x.pos] == '`' || s[x.pos] == '~')
            then MarksOutcome(s, y, Stop(Is(s[x.pos]), s, x.pos)) else None
  {
    hide Try, INFO, MarksOutcome, Marks;
    var y := x.(marks := x.marks + [x.pos]);
    SeqGroup(FENCE_MARKS, INFO, s, x);
    SeqAlt(Marks('`'), Marks('~'), Seq(Mark, INFO), s, y);
    MarksTry('`', s, y);
    MarksTry('~', s, y);
    forall c | c == '`' || c == '~'
      ensures x.pos == |s| || s[x.pos] != c ==> MarksOutcome(s, y, Stop(Is(c), s, x.pos)).None?
    {
      if x.pos == |s| || s[x.pos] != c {
        StopIs(Is(c), s, x.pos, x.pos);
        TooFewMarks(s, y, x.pos);
      }
    }
  }

  lemma OpenerOfMarks(line: string, marks: seq<nat>, i: nat, e: nat, w: nat)
    requires i < e <= w <= |line| && marks == [0, i, i]
    ensures OpenerOf(line, Some(At(|line|, marks + [e, w, |line|])))
         == if i <= 3 then Some(Fence(line[i], line[w..], i)) else None
  {
    var m := At(|line|, marks + [e, w, |line|]);
    assert Between(line, m, 0, 1) == line[0..i] && Between(line, m, 2, 3) == line[i..e];
    assert Between(line, m, 4, 5) == line[w..|line|] == line[w..];
  }

  lemma InfoIs(line: string, e: nat)
    requires e <= |line|
    ensures TrimStart(line[e..]) == line[Stop(IsSpace, line, e)..]
  {
  }

  lemma FenceOpensIf(line: string, i: nat, n: nat, rest: string, tail: string, info: string)
    requires i == RunOf(' ', line) && i < |line| && (line[i] == '`' || line[i] == '~')
    requires rest == line[i..] && n == RunOf(line[i], rest) && tail == line[i + n..] && info == TrimStart(tail)
    ensures FenceOpen(line) == if n >= 3 && i <= 3 && Dots(info) then Some(Fence(line[i], info, i)) else None
  {
    hide TrimStart, Dots, RunOf, Run, IsSpace, IsLineTerminator;
  }

  /** `e` is where the marks end, `w` where the info string begins. */
  lemma FenceOpensAt(line: string, i: nat, e: nat, w: nat)
    requires i == RunOf(' ', line) && i < |line| && (line[i] == '`' || line[i] == '~')
    requires e == Stop(Is(line[i]), line, i) && w == Stop(IsSpace, line, e)
    ensures FenceOpen(line)
         == if e >= i + 3 && i <= 3 && Dots(line[w..]) then Some(Fence(line[i], line[w..], i)) else None
  {
    hide *;
    var rest, tail, info := line[i..], line[e..], line[w..];
    assert RunOf(line[i], rest) == e - i by { StopOf(line[i], line, i); }
    assert info == TrimStart(tail) by { InfoIs(line, e); }
    assert tail == line[i + (e - i)..];
    FenceOpensIf(line, i, e - i, rest, tail, info);
  }

  lemma MarksOutcomeIs(s: string, x: At, e: nat)
    requires e <= |s|
    ensures var w := Stop(IsSpace, s, e);
      MarksOutcome(s, x, e) == if e >= x.pos + 3 && Dots(s[w..]) then Some(At(|s|, x.marks + [e, w, |s|])) else None
  {
    hide IsSpace, Stop, Dots;
  }

  lemma OutcomeOpens(line: string, x: At, i: nat, e: nat)
    requires i == RunOf(' ', line) && i < |line| && (line[i] == '`' || line[i] == '~') && e == Stop(Is(line[i]), line, i)
    requires x.pos == i && x.marks == [0, i, i]
    ensures FenceOpen(line) == OpenerOf(line, MarksOutcome(line, x, e))
  {
    hide *;
    var w := Stop(IsSpace, line, e);
    FenceOpensAt(line, i, e, w);
    MarksOutcomeIs(line, x, e);
    if e >= i + 3 { OpenerOfMarks(line, x.marks, i, e, w); }
    NoOpener(line);
  }

  lemma NoOpener(line: string)
    ensures OpenerOf(line, None) == None
  {
  }

  /** An opening fence is recognised, with its marker, its info string and its indentation, exactly as the expression
      and the check of its first group say. */
  lemma OpenerMatches(line: string)
    ensures FenceOpen(line) == OpenerOf(line, Exec(OPENER_EXPRESSION, line))
  {
    OpenerExec(line);
    NoOpener(line);
    var i := RunOf(' ', line);
    if i < |line| && (line[i] == '`' || line[i] == '~') {
      OutcomeOpens(line, At(i, [0, i, i]), i, Stop(Is(line[i]), line, i));
    }
    hide Exec, OpenerOf, MarksOutcome, Stop;
  }

  lemma SpacesThenMarks(line: string, k: nat)
    requires k <= |line|
    ensures Try(Seq(Mark, Seq(Group(FENCE_MARKS), INFO)), line, At(k, [0]))
         == if k < |line| && (line[k] == '`' || line[k] == '~')
            then MarksOutcome(line, At(k, [0, k, k]), Stop(Is(line[k]), line, k)) else None
  {
    hide *;
    SeqMark(Seq(Group(FENCE_MARKS), INFO), line, At(k, [0]));
    assert [0] + [k] == [0, k];
    FenceMarksTry(line, At(k, [0, k]));
    assert [0, k] + [k] == [0, k, k];
  }

  lemma OpenerExec(line: string)
    ensures var i := RunOf(' ', line);
      Exec(OPENER_EXPRESSION, line)
         == if i < |line| && (line[i] == '`' || line[i] == '~')
            then MarksOutcome(line, At(i, [0, i, i]), Stop(Is(line[i]), line, i)) else None
  {
    hide *;
    OpenerIs(line);
    var rest := Seq(Mark, Seq(Group(FENCE_MARKS), INFO));
    var i := RunOf(' ', line);
    StopOf(' ', line, 0);
    assert line[0..] == line;
    forall k | 0 <= k < i ensures Try(rest, line, At(0, [0]).(pos := k)).None? {
      SpacesThenMarks(line, k);
    }
    GreedyRun(Is(' '), rest, line, At(0, [0]));
    SpacesThenMarks(line, i);
  }

  lemma OpenerIs(line: string)
    ensures Exec(OPENER_EXPRESSION, line)
         == Try(Seq(Many(Is(' ')), Seq(Mark, Seq(Group(FENCE_MARKS), INFO))), line, At(0, [0]))
  {
    hide Try, FENCE_MARKS, INFO;
    SeqGroup(Many(Is(' ')), Seq(Group(FENCE_MARKS), INFO), line, At(0, []));
    assert [] + [0] == [0];
  }

  // --- Items: `^\s{0,3}[-*+]\s+(.+)$` and `^\s{0,3}\d+[.)]\s+(.+)$` --------------------------------

  /** `(.+)$` */
  const TEXT_END: Regex := Seq(Group(AtLeast(1, DOT)), END)

  const ITEM_BODY: Regex := Seq(AtLeast(1, IsSpace), TEXT_END)

  const BULLET_EXPRESSION: Regex := Seq(UpTo(3, IsSpace), Seq(Class(IsBullet), ITEM_BODY))

  const NUMBER_EXPRESSION: Regex :=
    Seq(UpTo(3, IsSpace), Seq(AtLeast(1, IsDigit), Seq(Class(IsStop), ITEM_BODY)))

  /** The text of the only group. */
  function GroupOf(line: string, m: Option<At>): Option<string> {
    if m.Some? then Some(Between(line, m.value, 0, 1)) else None
  }

  lemma TextEndTry(s: string, x: At)
    requires x.pos <= |s|
    ensures Try(TEXT_END, s, x)
         == if x.pos < |s| && Dots(s[x.pos..]) then Some(At(|s|, x.marks + [x.pos, |s|])) else None
  {
    hide Try, END, IsLineTerminator;
    var rest := Seq(Mark, END);
    var y := x.(marks := x.marks + [x.pos]);
    SeqGroup(AtLeast(1, DOT), END, s, x);
    AtLeastStep(1, DOT, rest, s, y);
    var e := Stop(DOT, s, x.pos);
    DotsFrom(s, x.pos, e);
    if x.pos < |s| && DOT(s[x.pos]) {
      var z := y.(pos := x.pos + 1);
      StopIs(DOT, s, z.pos, e);
      forall k | z.pos <= k <= e
        ensures Try(rest, s, z.(pos := k)) == if k == |s| then Some(At(k, y.marks + [k])) else None
      {
        SeqMark(END, s, z.(pos := k));
        EndTry(s, At(k, y.marks + [k]));
      }
      GreedyRun(DOT, rest, s, z);
      assert y.marks + [|s|] == x.marks + [x.pos, |s|];
    }
  }

  /** Of the ways to leave a text, `ItemBody` takes the one with the longest white space. `n` is where the text begins,
      and 0 if there is none. */
  lemma {:induction false} ItemBodyIs(s: string, w: nat) returns (n: nat)
    requires w <= |s|
    ensures n <= w && ItemBody(s, w) == if n > 0 then Some(s[n..]) else None
    ensures n > 0 ==> n < |s| && Dots(s[n..])
    ensures forall k | n < k <= w && k < |s| :: !Dots(s[k..])
  {
    hide Dots;
    if w == 0 || (w < |s| && Dots(s[w..])) { n := w; } else { n := ItemBodyIs(s, w - 1); }
  }

  function ItemOutcome(s: string, x: At): Option<At>
    requires x.pos <= |s|
  {
    match ItemBody(s[x.pos..], Run(IsSpace, s[x.pos..]))
    case None => None
    case Some(text) => if |text| <= |s| then Some(At(|s|, x.marks + [|s| - |text|, |s|])) else None
  }

  lemma ItemFirst(s: string, x: At)
    requires x.pos <= |s|
    ensures Try(ITEM_BODY, s, x)
         == if x.pos < Stop(IsSpace, s, x.pos) then Try(Seq(Many(IsSpace), TEXT_END), s, x.(pos := x.pos + 1)) else None
  {
    hide Try, IsSpace, TEXT_END, Run;
    AtLeastStep(1, IsSpace, TEXT_END, s, x);
    NotPast(IsSpace, s, x.pos);
  }

  lemma ItemFound(s: string, x: At, n: nat)
    requires x.pos <= |s| && x.pos < n <= Stop(IsSpace, s, x.pos) && n < |s| && Dots(s[n..])
    requires forall k | n < k <= Stop(IsSpace, s, x.pos) && k < |s| :: !Dots(s[k..])
    ensures Try(ITEM_BODY, s, x) == Some(At(|s|, x.marks + [n, |s|]))
  {
    hide Try, IsSpace, TEXT_END, Run, Dots, ITEM_BODY;
    ItemFirst(s, x);
    var e := Stop(IsSpace, s, x.pos);
    var y := x.(pos := x.pos + 1);
    StopIs(IsSpace, s, y.pos, e);
    NotPast(IsSpace, s, y.pos);
    forall k | n <= k <= |s| && AllIn(IsSpace, s, y.pos, k)
      ensures Try(TEXT_END, s, y.(pos := k)) == if k == n then Some(At(|s|, x.marks + [n, |s|])) else None
    {
      TextEndTry(s, y.(pos := k));
    }
    Greedy(IsSpace, TEXT_END, s, y, n);
  }

  lemma ItemNotFound(s: string, x: At)
    requires x.pos <= |s| && forall k | x.pos < k <= Stop(IsSpace, s, x.pos) && k < |s| :: !Dots(s[k..])
    ensures Try(ITEM_BODY, s, x).None?
  {
    hide Try, IsSpace, TEXT_END, Run, Dots, ITEM_BODY;
    ItemFirst(s, x);
    var e := Stop(IsSpace, s, x.pos);
    var y := x.(pos := x.pos + 1);
    if x.pos < e {
      StopIs(IsSpace, s, y.pos, e);
      NotPast(IsSpace, s, y.pos);
      forall k | y.pos <= k <= |s| && AllIn(IsSpace, s, y.pos, k) ensures Try(TEXT_END, s, y.(pos := k)).None? {
        TextEndTry(s, y.(pos := k));
      }
      GreedyFails(IsSpace, TEXT_END, s, y);
    }
  }

  /** The same with positions in the line. */
  lemma ItemBodyAt(s: string, i: nat) returns (n: nat)
    requires i <= |s|
    ensures i <= n <= Stop(IsSpace, s, i) && (n > i ==> n < |s| && Dots(s[n..]))
    ensures forall k | n < k <= Stop(IsSpace, s, i) && k < |s| :: !Dots(s[k..])
    ensures ItemBody(s[i..], Run(IsSpace, s[i..])) == if n > i then Some(s[n..]) else None
  {
    hide *;
    StopRun(IsSpace, s, i);
    var m := ItemBodyIs(s[i..], Run(IsSpace, s[i..]));
    n := i + m;
    SuffixOf(s, i, m);
    forall k | n < k <= Stop(IsSpace, s, i) && k < |s| ensures !Dots(s[k..]) { SuffixOf(s, i, k - i); }
  }

  lemma ItemBodyTry(s: string, x: At)
    requires x.pos <= |s|
    ensures Try(ITEM_BODY, s, x) == ItemOutcome(s, x)
  {
    hide *;
    var n := ItemBodyAt(s, x.pos);
    ItemOutcomeIs(s, x, n);
    if n > x.pos { ItemFound(s, x, n); } else { ItemNotFound(s, x); }
  }

  lemma ItemOutcomeIs(s: string, x: At, n: nat)
    requires x.pos <= n <= |s|
    requires ItemBody(s[x.pos..], Run(IsSpace, s[x.pos..])) == if n > x.pos then Some(s[n..]) else None
    ensures ItemOutcome(s, x) == if n > x.pos then Some(At(|s|, x.marks + [n, |s|])) else None
  {
    hide ItemBody, Run;
  }

  lemma ItemText(line: string, i: nat)
    requires i <= |line|
    ensures GroupOf(line, ItemOutcome(line, At(i, []))) == ItemBody(line[i..], Run(IsSpace, line[i..]))
  {
    hide *;
    var n := ItemBodyAt(line, i);
    ItemOutcomeIs(line, At(i, []), n);
    NoGroup(line);
    if n > i { GroupIs(line, n); }
  }

  lemma NoGroup(line: string)
    ensures GroupOf(line, None) == None
  {
  }

  /** `^\s{0,3}` before something that cannot begin with white space. */
  lemma Indented(b: Regex, line: string)
    requires forall x: At | x.pos < |line| && IsSpace(line[x.pos]) :: Try(b, line, x).None?
    ensures var i := Run(IsSpace, line);
      Exec(Seq(UpTo(3, IsSpace), b), line) == if i <= 3 then Try(b, line, At(i, [])) else None
  {
    hide Try, IsSpace;
    assert line[0..] == line;
    UpToRun(3, IsSpace, b, line, At(0, []));
  }

  lemma SignsAreNoSpace()
    ensures forall c: char :: IsBullet(c) || IsDigit(c) || c == '#' || c == '>' || IsRuleMark(c) ==> !IsSpace(c)
    ensures forall c: char :: IsDigit(c) ==> !IsStop(c)
  {
  }

  /** A bullet is recognised, with its text, exactly as the expression says. */
  lemma BulletMatches(line: string)
    ensures BulletAt(line) == GroupOf(line, Exec(BULLET_EXPRESSION, line))
  {
    hide Try, IsSpace, ITEM_BODY, ItemBody, IsBullet;
    SignsAreNoSpace();
    var b := Seq(Class(IsBullet), ITEM_BODY);
    forall x: At | x.pos < |line| && IsSpace(line[x.pos]) ensures Try(b, line, x).None? {
      SeqClass(IsBullet, ITEM_BODY, line, x);
    }
    Indented(b, line);
    var i := Run(IsSpace, line);
    SeqClass(IsBullet, ITEM_BODY, line, At(i, []));
    if i < |line| {
      ItemBodyTry(line, At(i + 1, []));
      ItemText(line, i + 1);
      BulletIs(line, i);
    }
  }

  lemma BulletIs(line: string, i: nat)
    requires i == Run(IsSpace, line) && i < |line|
    ensures BulletAt(line)
         == if i <= 3 && IsBullet(line[i]) then ItemBody(line[i + 1..], Run(IsSpace, line[i + 1..])) else None
  {
    hide Run, IsSpace, ItemBody;
  }

  lemma NumberIs(line: string, i: nat, d: nat)
    requires i == Run(IsSpace, line) && d == i + Run(IsDigit, line[i..])
    ensures NumberedAt(line)
         == if i <= 3 && i < d < |line| && IsStop(line[d]) then ItemBody(line[d + 1..], Run(IsSpace, line[d + 1..]))
            else None
  {
    hide Run, IsSpace, ItemBody;
  }

  lemma DigitsTry(line: string, i: nat)
    requires i <= |line|
    ensures var d := Stop(IsDigit, line, i);
      Try(Seq(AtLeast(1, IsDigit), Seq(Class(IsStop), ITEM_BODY)), line, At(i, []))
         == if i < d < |line| && IsStop(line[d]) then ItemOutcome(line, At(d + 1, [])) else None
  {
    hide Try, IsSpace, ITEM_BODY, ItemBody, ItemOutcome, IsDigit, IsStop, Run;
    SignsAreNoSpace();
    var rest := Seq(Class(IsStop), ITEM_BODY);
    var d := Stop(IsDigit, line, i);
    AtLeastStep(1, IsDigit, rest, line, At(i, []));
    NotPast(IsDigit, line, i);
    if i < d {
      StopIs(IsDigit, line, i + 1, d);
      forall k | i + 1 <= k < d ensures Try(rest, line, At(k, [])).None? { SeqClass(IsStop, ITEM_BODY, line, At(k, [])); }
      GreedyRun(IsDigit, rest, line, At(i + 1, []));
      SeqClass(IsStop, ITEM_BODY, line, At(d, []));
      if d < |line| { ItemBodyTry(line, At(d + 1, [])); }
    }
  }

  lemma DigitsAfterSpace(line: string, x: At)
    requires x.pos < |line| && IsSpace(line[x.pos])
    ensures Try(Seq(AtLeast(1, IsDigit), Seq(Class(IsStop), ITEM_BODY)), line, x).None?
  {
    hide Try, IsSpace, ITEM_BODY, IsDigit, IsStop;
    SignsAreNoSpace();
    AtLeastStep(1, IsDigit, Seq(Class(IsStop), ITEM_BODY), line, x);
  }

  /** A numbered item is recognised, with its text, exactly as the expression says. */
  lemma NumberMatches(line: string)
    ensures NumberedAt(line) == GroupOf(line, Exec(NUMBER_EXPRESSION, line))
  {
    hide *;
    NumberStart(line);
    var i := Run(IsSpace, line);
    var d := Stop(IsDigit, line, i);
    StopRun(IsDigit, line, i);
    DigitsTry(line, i);
    NumberIs(line, i, d);
    NoGroup(line);
    if d < |line| { ItemText(line, d + 1); }
  }

  lemma NumberStart(line: string)
    ensures var i := Run(IsSpace, line);
      Exec(NUMBER_EXPRESSION, line)
         == if i <= 3 then Try(Seq(AtLeast(1, IsDigit), Seq(Class(IsStop), ITEM_BODY)), line, At(i, [])) else None
  {
    hide Exec, Try, ITEM_BODY, IsSpace, UpTo, Run, AtLeast;
    var b := Seq(AtLeast(1, IsDigit), Seq(Class(IsStop), ITEM_BODY));
    forall x: At | x.pos < |line| && IsSpace(line[x.pos]) ensures Try(b, line, x).None? { DigitsAfterSpace(line, x); }
    Indented(b, line);
  }

  // --- Quotes: `^\s{0,3}>\s?(.*)$` -----------------------------------------------------------------

  const QUOTE_BODY: Regex := Seq(Maybe(Class(IsSpace)), DOTS_END)

  const QUOTE_EXPRESSION: Regex := Seq(UpTo(3, IsSpace), Seq(Class(Is('>')), QUOTE_BODY))

  lemma QuoteBodyTry(s: string, x: At)
    requires x.pos <= |s|
    ensures Try(QUOTE_BODY, s, x)
         == if x.pos < |s| && IsSpace(s[x.pos]) && Dots(s[x.pos + 1..]) then Some(At(|s|, x.marks + [x.pos + 1, |s|]))
            else if Dots(s[x.pos..]) then Some(At(|s|, x.marks + [x.pos, |s|])) else None
  {
    hide Try, IsSpace, DOTS_END, Dots;
    SeqAlt(Class(IsSpace), Empty, DOTS_END, s, x);
    SeqClass(IsSpace, DOTS_END, s, x);
    SeqEmpty(DOTS_END, s, x);
    DotsEndTry(s, x);
    if x.pos < |s| { DotsEndTry(s, x.(pos := x.pos + 1)); }
  }

  lemma QuoteIs(line: string, i: nat)
    requires i == Run(IsSpace, line) && i < |line|
    ensures QuoteAt(line)
         == if i > 3 || line[i] != '>' then None
            else if i + 1 < |line| && IsSpace(line[i + 1]) && Dots(line[i + 2..]) then Some(line[i + 2..])
            else if Dots(line[i + 1..]) then Some(line[i + 1..]) else None
  {
    hide Run, IsSpace, Dots;
    if i + 1 < |line| { assert line[i + 1..][1..] == line[i + 2..]; }
  }

  /** A quote is recognised, with its text, exactly as the expression says. */
  lemma QuoteMatches(line: string)
    ensures QuoteAt(line) == GroupOf(line, Exec(QUOTE_EXPRESSION, line))
  {
    hide Try, IsSpace, QUOTE_BODY, Dots;
    SignsAreNoSpace();
    var b := Seq(Class(Is('>')), QUOTE_BODY);
    forall x: At | x.pos < |line| && IsSpace(line[x.pos]) ensures Try(b, line, x).None? {
      SeqClass(Is('>'), QUOTE_BODY, line, x);
    }
    Indented(b, line);
    var i := Run(IsSpace, line);
    SeqClass(Is('>'), QUOTE_BODY, line, At(i, []));
    if i < |line| {
      QuoteBodyTry(line, At(i + 1, []));
      QuoteIs(line, i);
      assert line[i + 1..|line|] == line[i + 1..];
      if i + 2 <= |line| { assert line[i + 2..|line|] == line[i + 2..]; }
      GroupIs(line, i + 1);
      if i + 2 <= |line| { GroupIs(line, i + 2); }
    }
  }

  lemma GroupIs(line: string, k: nat)
    requires k <= |line|
    ensures GroupOf(line, Some(At(|line|, [] + [k, |line|]))) == Some(line[k..])
  {
    assert line[k..|line|] == line[k..];
  }

  // --- Titles: `^\s{0,3}(#{1,3})\s+(.+?)\s*#*\s*$` -------------------------------------------------

  const HASH_END: Regex := Seq(Many(Is('#')), SPACE_END)

  const TITLE_TAIL: Regex := Seq(Many(IsSpace), HASH_END)

  const LAZY_TEXT: Regex := Seq(Star(Class(DOT), true), Seq(Mark, TITLE_TAIL))

  const TITLE_TEXT: Regex := Seq(Group(Seq(Class(DOT), Star(Class(DOT), true))), TITLE_TAIL)

  const TITLE_BODY: Regex := Seq(AtLeast(1, IsSpace), TITLE_TEXT)

  const TITLE_EXPRESSION: Regex :=
    Seq(UpTo(3, IsSpace), Seq(Group(Seq(Class(Is('#')), UpTo(2, Is('#')))), TITLE_BODY))

  /** The level and the text of a heading, from the two groups. */
  function TitleOf(line: string, m: Option<At>): Option<(nat, string)> {
    if m.Some? then Some((|Between(line, m.value, 0, 1)|, Between(line, m.value, 2, 3))) else None
  }

  lemma HashIsNoSpace(s: string, k: nat)
    requires k < |s| && Is('#')(s[k])
    ensures !IsSpace(s[k]) && !AllSpace(s[k..])
  {
    assert s[k..][0] == s[k];
  }

  lemma HashEndTry(s: string, x: At)
    requires x.pos <= |s|
    ensures Try(HASH_END, s, x) == if AllSpace(s[Stop(Is('#'), s, x.pos)..]) then Some(x.(pos := |s|)) else None
  {
    hide Try, IsSpace, SPACE_END, AllSpace, Run;
    var e := Stop(Is('#'), s, x.pos);
    forall k | x.pos <= k < e ensures Try(SPACE_END, s, x.(pos := k)).None? {
      SpaceEndTry(s, x.(pos := k));
      HashIsNoSpace(s, k);
    }
    GreedyRun(Is('#'), SPACE_END, s, x);
    SpaceEndTry(s, x.(pos := e));
  }

  predicate TailAt(s: string, i: nat)
    requires i <= |s|
  {
    AllSpace(s[Stop(Is('#'), s, Stop(IsSpace, s, i))..])
  }

  lemma TailParts(u: string, a: nat, b: nat)
    requires a == Run(IsSpace, u) && b == RunOf('#', u[a..])
    ensures TitleTail(u) <==> AllSpace(u[a + b..])
  {
    hide Run, RunOf, AllSpace;
  }

  lemma TailIs(s: string, i: nat)
    requires i <= |s|
    ensures TitleTail(s[i..]) <==> TailAt(s, i)
  {
    hide *;
    TailAtIs(s, i);
    var a := Stop(IsSpace, s, i);
    var b := Stop(Is('#'), s, a);
    StopRun(IsSpace, s, i);
    StopOf('#', s, a);
    SuffixOf(s, i, a - i);
    TailParts(s[i..], a - i, b - a);
    SuffixOf(s, i, b - i);
  }

  lemma TailAtIs(s: string, i: nat)
    requires i <= |s|
    ensures TailAt(s, i) <==> AllSpace(s[Stop(Is('#'), s, Stop(IsSpace, s, i))..])
  {
    hide Stop, AllSpace;
  }

  lemma TailTry(s: string, x: At)
    requires x.pos <= |s|
    ensures Try(TITLE_TAIL, s, x) == if TailAt(s, x.pos) then Some(x.(pos := |s|)) else None
  {
    hide Try, IsSpace, HASH_END, AllSpace, Run;
    var a := Stop(IsSpace, s, x.pos);
    HashEndTry(s, x.(pos := a));
    if TailAt(s, x.pos) {
      GreedyAll(IsSpace, HASH_END, s, x);
    } else {
      NotPast(IsSpace, s, x.pos);
      forall k | x.pos <= k <= |s| && AllIn(IsSpace, s, x.pos, k) ensures Try(HASH_END, s, x.(pos := k)).None? {
        HashEndTry(s, x.(pos := k));
        if k < a && AllSpace(s[Stop(Is('#'), s, k)..]) { EarlierTail(s, k, a); }
      }
      GreedyFails(IsSpace, HASH_END, s, x);
    }
  }

  /** Giving white space back does not help the tail. */
  lemma EarlierTail(s: string, k: nat, a: nat)
    requires k < a <= |s| && AllIn(IsSpace, s, k, a) && AllSpace(s[Stop(Is('#'), s, k)..])
    ensures AllSpace(s[Stop(Is('#'), s, a)..])
  {
    hide IsSpace, Run;
    if Is('#')(s[k]) { HashIsNoSpace(s, k); }
    StopIs(Is('#'), s, k, k);
    var b := Stop(Is('#'), s, a);
    forall j | 0 <= j < |s[b..]| ensures IsSpace(s[b..][j]) { assert s[b..][j] == s[k..][b - k + j]; }
  }

  function TextOutcome(s: string, x: At, i: nat, text: Option<string>): Option<At>
    requires i <= |s|
  {
    if text.Some? && i + |text.value| <= |s| then Some(At(|s|, x.marks + [i + |text.value|])) else None
  }

  lemma MarkTailTry(s: string, x: At)
    requires x.pos <= |s|
    ensures Try(Seq(Mark, TITLE_TAIL), s, x)
         == if TailAt(s, x.pos) then Some(At(|s|, x.marks + [x.pos])) else None
  {
    hide Try, TITLE_TAIL, TailAt;
    SeqMark(TITLE_TAIL, s, x);
    TailTry(s, x.(marks := x.marks + [x.pos]));
  }

  lemma DotsMore(u: string, n: nat)
    requires n < |u| && Dots(u[..n])
    ensures Dots(u[..n + 1]) <==> DOT(u[n])
  {
    hide IsLineTerminator;
    assert u[..n + 1][n] == u[n];
    var more := u[..n + 1];
    forall j | 0 <= j < n ensures DOT(more[j]) { assert more[j] == u[..n][j]; }
  }

  lemma {:induction false} LazyTry(s: string, i: nat, n: nat, marks: seq<nat>)
    requires 0 < n && i + n <= |s| && Dots(s[i..][..n])
    ensures Try(LAZY_TEXT, s, At(i + n, marks)) == TextOutcome(s, At(i, marks), i, TitleText(s[i..], n))
    decreases |s| - i - n
  {
    hide Try, TITLE_TAIL, TailAt, TitleTail, Dots;
    var u := s[i..];
    var rest := Seq(Mark, TITLE_TAIL);
    var x := At(i + n, marks);
    ManyStep(DOT, true, rest, s, x);
    MarkTailTry(s, x);
    TailIs(s, i + n);
    SuffixOf(s, i, n);
    if n < |u| {
      DotsMore(u, n);
      if DOT(u[n]) { LazyTry(s, i, n + 1, marks); }
    }
  }

  lemma TitleTextFirst(u: string)
    ensures TitleText(u, 0) == if u != "" && DOT(u[0]) then TitleText(u, 1) else None
    ensures u != "" && DOT(u[0]) ==> Dots(u[..1])
  {
    hide TitleTail, IsLineTerminator;
    if u != "" && DOT(u[0]) { assert u[..1][0] == u[0]; }
  }

  lemma TitleTextSteps(s: string, x: At)
    ensures var y := At(x.pos, x.marks + [x.pos]);
      Try(TITLE_TEXT, s, x)
         == if x.pos < |s| && DOT(s[x.pos]) then Try(LAZY_TEXT, s, y.(pos := x.pos + 1)) else None
  {
    hide Try, TITLE_TAIL;
    var y := At(x.pos, x.marks + [x.pos]);
    var lazy := Star(Class(DOT), true);
    SeqGroup(Seq(Class(DOT), lazy), TITLE_TAIL, s, x);
    SeqAssoc(Class(DOT), lazy, Seq(Mark, TITLE_TAIL), s, y);
    SeqClass(DOT, LAZY_TEXT, s, y);
  }

  lemma TitleTextTry(s: string, x: At)
    requires x.pos <= |s|
    ensures var text := TitleText(s[x.pos..], 0);
      Try(TITLE_TEXT, s, x) == TextOutcome(s, At(x.pos, x.marks + [x.pos]), x.pos, text)
  {
    hide *;
    TitleTextSteps(s, x);
    TitleTextFirst(s[x.pos..]);
    NoText(s, x.pos, At(x.pos, x.marks + [x.pos]));
    if x.pos < |s| && DOT(s[x.pos]) { LazyTry(s, x.pos, 1, x.marks + [x.pos]); }
  }

  lemma NoText(s: string, i: nat, x: At)
    requires i <= |s|
    ensures TextOutcome(s, x, i, None) == None
  {
  }

  /** Of the white space in front of a text, `TitleBody` takes the longest that leaves one. `n` is where the rest
      begins, and 0 if there is none. */
  lemma {:induction false} TitleBodyIs(s: string, w: nat) returns (n: nat)
    requires w <= |s|
    ensures n <= w && TitleBody(s, w) == if n > 0 then TitleText(s[n..], 0) else None
    ensures n > 0 ==> TitleText(s[n..], 0).Some?
    ensures forall k | n < k <= w :: TitleText(s[k..], 0).None?
  {
    hide TitleText;
    if w == 0 || TitleText(s[w..], 0).Some? { n := w; } else { n := TitleBodyIs(s, w - 1); }
  }

  /** The same with positions in the line. */
  lemma TitleBodyAt(s: string, i: nat) returns (n: nat)
    requires i <= |s|
    ensures i <= n <= Stop(IsSpace, s, i)
    ensures TitleBody(s[i..], Run(IsSpace, s[i..])) == if n > i then TitleText(s[n..], 0) else None
    ensures n > i ==> TitleText(s[n..], 0).Some?
    ensures forall k | n < k <= Stop(IsSpace, s, i) :: TitleText(s[k..], 0).None?
  {
    hide IsSpace, TitleText, TitleBody;
    var w := Run(IsSpace, s[i..]);
    var m := TitleBodyIs(s[i..], w);
    n := i + m;
    SuffixOf(s, i, m);
    forall k | n < k <= i + w ensures TitleText(s[k..], 0).None? { SuffixOf(s, i, k - i); }
  }

  lemma TitleTextSome(s: string, x: At)
    requires x.pos <= |s|
    ensures Try(TITLE_TEXT, s, x).Some? <==> TitleText(s[x.pos..], 0).Some?
  {
    TitleTextTry(s, x);
    TitleTextFits(s[x.pos..], 0);
    hide Try, TitleText;
  }

  lemma {:induction false} TitleTextFits(s: string, n: nat)
    requires n <= |s|
    ensures TitleText(s, n).Some? ==> TitleText(s, n).value <= s
    decreases |s| - n
  {
    hide TitleTail, IsLineTerminator;
    if !(n > 0 && !Dots(s[..n])) && !(n > 0 && TitleTail(s[n..])) && n < |s| { TitleTextFits(s, n + 1); }
  }

  lemma TitleBodyFirst(s: string, x: At)
    requires x.pos <= |s|
    ensures Try(TITLE_BODY, s, x)
         == if x.pos < Stop(IsSpace, s, x.pos) then Try(Seq(Many(IsSpace), TITLE_TEXT), s, x.(pos := x.pos + 1)) else None
  {
    hide Try, IsSpace, TITLE_TEXT, Run;
    AtLeastStep(1, IsSpace, TITLE_TEXT, s, x);
    NotPast(IsSpace, s, x.pos);
  }

  lemma TitleBodyTry(s: string, x: At, n: nat)
    requires x.pos <= |s| && x.pos <= n <= Stop(IsSpace, s, x.pos) && (n > x.pos ==> TitleText(s[n..], 0).Some?)
    requires forall k | n < k <= Stop(IsSpace, s, x.pos) :: TitleText(s[k..], 0).None?
    ensures Try(TITLE_BODY, s, x) == if n > x.pos then Try(TITLE_TEXT, s, x.(pos := n)) else None
  {
    hide *;
    TitleBodyFirst(s, x);
    var e := Stop(IsSpace, s, x.pos);
    var y := x.(pos := x.pos + 1);
    if x.pos < e {
      StopIs(IsSpace, s, y.pos, e);
      NotPast(IsSpace, s, y.pos);
      forall k | n < k <= |s| && AllIn(IsSpace, s, y.pos, k) ensures Try(TITLE_TEXT, s, y.(pos := k)).None? {
        TitleTextSome(s, y.(pos := k));
      }
      if n > x.pos {
        AllBefore(IsSpace, s, y.pos, e, n);
        TitleTextSome(s, y.(pos := n));
        Greedy(IsSpace, TITLE_TEXT, s, y, n);
        assert y.(pos := n) == x.(pos := n);
      } else {
        GreedyFails(IsSpace, TITLE_TEXT, s, y);
      }
    }
  }

  /** The marks in front and what follows them. */
  lemma LevelTry(line: string, i: nat)
    requires i <= |line|
    ensures var h := Stop(Is('#'), line, i);
      Try(Seq(Group(Seq(Class(Is('#')), UpTo(2, Is('#')))), TITLE_BODY), line, At(i, []))
         == if 1 <= h - i <= 3 then Try(TITLE_BODY, line, At(h, [i, h])) else None
  {
    hide *;
    var h := Stop(Is('#'), line, i);
    var rest := Seq(Mark, TITLE_BODY);
    LevelSteps(line, i);
    if i < h {
      StopIs(Is('#'), line, i + 1, h);
      var y := At(i + 1, [i]);
      forall k | y.pos <= k < h ensures Try(rest, line, y.(pos := k)).None? { HashThenBody(line, y.(pos := k)); }
      UpToRun(2, Is('#'), rest, line, y);
      SeqMark(TITLE_BODY, line, At(h, [i]));
      assert [i] + [h] == [i, h];
    }
  }

  lemma LevelSteps(line: string, i: nat)
    requires i <= |line|
    ensures Try(Seq(Group(Seq(Class(Is('#')), UpTo(2, Is('#')))), TITLE_BODY), line, At(i, []))
         == if i < Stop(Is('#'), line, i) then Try(Seq(UpTo(2, Is('#')), Seq(Mark, TITLE_BODY)), line, At(i + 1, [i]))
            else None
  {
    hide Try, TITLE_BODY, Run, UpTo;
    var one, more := Class(Is('#')), UpTo(2, Is('#'));
    SeqGroup(Seq(one, more), TITLE_BODY, line, At(i, []));
    assert [] + [i] == [i];
    SeqAssoc(one, more, Seq(Mark, TITLE_BODY), line, At(i, [i]));
    SeqClass(Is('#'), Seq(more, Seq(Mark, TITLE_BODY)), line, At(i, [i]));
    var h := Stop(Is('#'), line, i);
  }

  lemma HashThenBody(line: string, x: At)
    requires x.pos < |line| && Is('#')(line[x.pos])
    ensures Try(Seq(Mark, TITLE_BODY), line, x).None?
  {
    SeqMark(TITLE_BODY, line, x);
    TitleBodyFirst(line, x.(marks := x.marks + [x.pos]));
    HashIsNoSpace(line, x.pos);
    hide Try, TITLE_BODY, IsSpace, Run;
    StopIs(IsSpace, line, x.pos, x.pos);
  }

  lemma TitleIs(line: string, i: nat, h: nat)
    requires i == Run(IsSpace, line) && h == i + RunOf('#', line[i..])
    ensures TitleAt(line)
         == if i > 3 || h == i || h > i + 3 then None
            else match TitleBody(line[h..], Run(IsSpace, line[h..]))
                 case None => None
                 case Some(text) => Some((h - i, text))
  {
    hide Run, RunOf, IsSpace, TitleBody;
  }

  lemma SpaceThenLevel(line: string, x: At)
    requires x.pos < |line| && IsSpace(line[x.pos])
    ensures Try(Seq(Group(Seq(Class(Is('#')), UpTo(2, Is('#')))), TITLE_BODY), line, x).None?
  {
    hide Try, TITLE_BODY, UpTo, IsSpace;
    SignsAreNoSpace();
    var one, more := Class(Is('#')), UpTo(2, Is('#'));
    var y := x.(marks := x.marks + [x.pos]);
    SeqGroup(Seq(one, more), TITLE_BODY, line, x);
    SeqAssoc(one, more, Seq(Mark, TITLE_BODY), line, y);
    SeqClass(Is('#'), Seq(more, Seq(Mark, TITLE_BODY)), line, y);
  }

  lemma TitleOfMarks(line: string, i: nat, h: nat, n: nat, text: string)
    requires i <= h <= n && n + |text| <= |line| && text <= line[n..]
    ensures TitleOf(line, Some(At(|line|, [i, h, n, n + |text|]))) == Some((h - i, text))
    ensures TitleOf(line, None) == None
  {
    var m := At(|line|, [i, h, n, n + |text|]);
    assert Between(line, m, 0, 1) == line[i..h];
    var rest := line[n..];
    assert rest[..|text|] == text && line[n..n + |text|] == rest[..|text|];
    assert Between(line, m, 2, 3) == line[n..n + |text|];
  }

  lemma TextOutcomeIs(s: string, x: At, i: nat, text: string)
    requires i + |text| <= |s|
    ensures TextOutcome(s, x, i, Some(text)) == Some(At(|s|, x.marks + [i + |text|]))
  {
  }

  lemma FourMarks(i: nat, h: nat, n: nat, k: nat)
    ensures [i, h] + [n] + [k] == [i, h, n, k]
  {
  }

  lemma TitleOutcome(line: string, i: nat, h: nat, n: nat)
    requires i <= h <= n <= |line| && TitleText(line[n..], 0).Some?
    ensures var text := TitleText(line[n..], 0).value;
      Try(TITLE_TEXT, line, At(n, [i, h])) == Some(At(|line|, [i, h, n, n + |text|])) && text <= line[n..]
  {
    hide *;
    var text := TitleText(line[n..], 0).value;
    TitleTextFits(line[n..], 0);
    TitleTextTry(line, At(n, [i, h]));
    TextOutcomeIs(line, At(n, [i, h] + [n]), n, text);
    FourMarks(i, h, n, n + |text|);
  }

  /** A heading is recognised, with its level and its text, exactly as the expression says: the white space in front of
      the text is as long, and the text as short, as a backtracking matcher leaves them. */
  lemma TitleMatches(line: string)
    ensures TitleAt(line) == TitleOf(line, Exec(TITLE_EXPRESSION, line))
  {
    hide *;
    TitleStart(line);
    var i := Run(IsSpace, line);
    StopOf('#', line, i);
    var h := i + RunOf('#', line[i..]);
    TitleIs(line, i, h);
    LevelTry(line, i);
    var n := TitleBodyAt(line, h);
    TitleBodyTry(line, At(h, [i, h]), n);
    TitleOfMarks(line, 0, 0, 0, "");
    if n > h {
      TitleOutcome(line, i, h, n);
      TitleOfMarks(line, i, h, n, TitleText(line[n..], 0).value);
    }
  }

  lemma TitleStart(line: string)
    ensures var i := Run(IsSpace, line);
      Exec(TITLE_EXPRESSION, line)
         == if i <= 3 then Try(Seq(Group(Seq(Class(Is('#')), UpTo(2, Is('#')))), TITLE_BODY), line, At(i, [])) else None
  {
    hide Exec, Try, TITLE_BODY, IsSpace, UpTo, Run;
    var b := Seq(Group(Seq(Class(Is('#')), UpTo(2, Is('#')))), TITLE_BODY);
    forall x: At | x.pos < |line| && IsSpace(line[x.pos]) ensures Try(b, line, x).None? { SpaceThenLevel(line, x); }
    Indented(b, line);
  }

  // --- Rules: `^\s{0,3}([-*_])(?:\s*\1){2,}\s*$` ---------------------------------------------------

  /** `\s*\1` */
  const ROUND: Regex := Seq(Many(IsSpace), Back(0, 1))

  /** `(?:\s*\1){k,}\s*$` */
  function Rounds(k: nat): Regex {
    if k == 0 then Seq(Star(ROUND, false), SPACE_END) else Seq(ROUND, Rounds(k - 1))
  }

  const RULE_EXPRESSION: Regex := Seq(UpTo(3, IsSpace), Seq(Group(Class(IsRuleMark)), Rounds(2)))

  predicate Only(c: char, s: string) { forall i | 0 <= i < |s| :: s[i] == c || IsSpace(s[i]) }

  lemma {:induction false} CountConcat(c: char, a: string, b: string)
    ensures Count(c, a + b) == Count(c, a) + Count(c, b)
  {
    if a == "" {
      assert a + b == b;
    } else {
      assert (a + b)[0] == a[0] && (a + b)[1..] == a[1..] + b;
      CountConcat(c, a[1..], b);
    }
  }

  lemma {:induction false} SpaceCounts(c: char, s: string)
    requires !IsSpace(c) && Only(c, s)
    ensures AllSpace(s) <==> Count(c, s) == 0
  {
    hide IsSpace;
    if s != "" {
      SpaceCounts(c, s[1..]);
      assert AllSpace(s) <==> IsSpace(s[0]) && AllSpace(s[1..]) by {
        if IsSpace(s[0]) && AllSpace(s[1..]) {
          forall i | 0 <= i < |s| ensures IsSpace(s[i]) { if i > 0 { assert s[1..][i - 1] == s[i]; } }
        }
      }
    }
  }

  lemma CountAt(c: char, s: string, n: nat)
    requires !IsSpace(c) && n < |s| && AllSpace(s[..n]) && s[n] == c
    ensures Count(c, s) == 1 + Count(c, s[n + 1..])
    ensures Only(c, s) <==> Only(c, s[n + 1..])
  {
    hide IsSpace;
    SpaceCounts(c, s[..n]);
    assert s == s[..n] + s[n..] && s[n..][1..] == s[n + 1..];
    CountConcat(c, s[..n], s[n..]);
    if Only(c, s[n + 1..]) {
      forall i | 0 <= i < |s| ensures s[i] == c || IsSpace(s[i]) {
        if i < n { assert s[..n][i] == s[i]; }
        if i > n { assert s[n + 1..][i - n - 1] == s[i]; }
      }
    }
    hide Count;
  }

  /** The first group is the mark at `i`. */
  predicate Marked(s: string, x: At, i: nat) {
    i < |s| && x.marks == [i, i + 1] && x.pos <= |s| && !IsSpace(s[i])
  }

  lemma BackEnds(s: string, x: At, i: nat)
    requires Marked(s, x, i)
    ensures Ends(Back(0, 1), s, x) == if x.pos < |s| && s[x.pos] == s[i] then [x.(pos := x.pos + 1)] else []
  {
    assert s[i..i + 1] == [s[i]];
    if x.pos < |s| { assert s[x.pos..][0] == s[x.pos]; }
  }

  lemma RoundStep(s: string, x: At, i: nat)
    requires Marked(s, x, i)
    ensures var more := if x.pos < |s| && IsSpace(s[x.pos]) then Ends(ROUND, s, x.(pos := x.pos + 1)) else [];
      Ends(ROUND, s, x) == more + Ends(Back(0, 1), s, x)
  {
    hide Ends, Bind, IsSpace, Marked;
    var y := x.(pos := x.pos + 1);
    ManyEnds(IsSpace, false, s, x);
    SeqEnds(Many(IsSpace), Back(0, 1), s, x);
    SeqEnds(Many(IsSpace), Back(0, 1), s, y);
    BindOne(x, Back(0, 1), s);
    BindNone(Back(0, 1), s);
    BindConcat(if x.pos < |s| && IsSpace(s[x.pos]) then Ends(Many(IsSpace), s, y) else [], [x], Back(0, 1), s);
  }

  lemma {:induction false} RoundEnds(s: string, x: At, i: nat)
    requires Marked(s, x, i)
    ensures var e := Stop(IsSpace, s, x.pos);
      Ends(ROUND, s, x) == if e < |s| && s[e] == s[i] then [x.(pos := e + 1)] else []
    decreases |s| - x.pos
  {
    hide *;
    MarkedIs(s, x, i);
    RoundStep(s, x, i);
    BackEnds(s, x, i);
    var e := Stop(IsSpace, s, x.pos);
    StopStep(IsSpace, s, x.pos);
    if x.pos < e {
      MarkedOn(s, x, i, x.pos + 1);
      RoundEnds(s, x.(pos := x.pos + 1), i);
    }
  }

  lemma ManyEnds(p: char -> bool, lazy: bool, s: string, x: At)
    ensures var more := if x.pos < |s| && p(s[x.pos]) then Ends(Star(Class(p), lazy), s, x.(pos := x.pos + 1)) else [];
      Ends(Star(Class(p), lazy), s, x) == if lazy then [x] + more else more + [x]
  {
    StarEnds(Class(p), lazy, s, x);
  }

  lemma RoundTry(s: string, x: At, i: nat)
    requires Marked(s, x, i)
    ensures var e := Stop(IsSpace, s, x.pos);
      OneRound(ROUND, s, x)
      && Try(ROUND, s, x) == if e < |s| && s[e] == s[i] then Some(x.(pos := e + 1)) else None
  {
    RoundEnds(s, x, i);
    hide Ends, ROUND, IsSpace, Run;
    var e := Stop(IsSpace, s, x.pos);
  }

  /** What is behind the next mark, if only white space is in front of it. */
  lemma BehindMark(s: string, i: nat, c: char)
    requires i <= |s| && !IsSpace(c)
    ensures var u, e := s[i..], Stop(IsSpace, s, i);
      && (e == |s| ==> AllSpace(u) && Only(c, u) && Count(c, u) == 0)
      && (e < |s| && s[e] == c ==> !AllSpace(u) && (Only(c, u) <==> Only(c, s[e + 1..]))
                                   && Count(c, u) == 1 + Count(c, s[e + 1..]))
      && (e < |s| && s[e] != c ==> !AllSpace(u) && !Only(c, u))
  {
    hide IsSpace, Count;
    var u, e := s[i..], Stop(IsSpace, s, i);
    if e == |s| {
      assert AllSpace(u);
      SpaceCounts(c, u);
    } else {
      assert u[e - i] == s[e] && u[e - i + 1..] == s[e + 1..];
      var front := u[..e - i];
      forall j | 0 <= j < |front| ensures IsSpace(front[j]) { assert front[j] == s[i + j]; }
      if s[e] == c { CountAt(c, u, e - i); }
    }
  }

  lemma {:induction false} RestTry(s: string, x: At, i: nat)
    requires Marked(s, x, i)
    ensures Try(Rounds(0), s, x).Some? <==> Only(s[i], s[x.pos..])
    decreases |s| - x.pos
  {
    hide *;
    MarkedIs(s, x, i);
    RoundTry(s, x, i);
    RoundsStart();
    StarStep(ROUND, false, SPACE_END, s, x);
    SpaceEndTry(s, x);
    BehindMark(s, x.pos, s[i]);
    OrSome();
    var e := Stop(IsSpace, s, x.pos);
    if e < |s| && s[e] == s[i] {
      MarkedOn(s, x, i, e + 1);
      RestTry(s, x.(pos := e + 1), i);
    }
  }

  lemma OrSome()
    ensures forall a, b :: Or(a, b).Some? <==> a.Some? || b.Some?
  {
  }

  lemma MarkedIs(s: string, x: At, i: nat)
    ensures Marked(s, x, i) <==> i < |s| && x.marks == [i, i + 1] && x.pos <= |s| && !IsSpace(s[i])
  {
    hide IsSpace;
  }

  lemma MarkedOn(s: string, x: At, i: nat, k: nat)
    requires Marked(s, x, i) && k <= |s|
    ensures Marked(s, x.(pos := k), i)
  {
    hide IsSpace;
  }

  lemma RoundsStart()
    ensures Rounds(0) == Seq(Star(ROUND, false), SPACE_END)
  {
  }

  lemma RoundsMore(k: nat)
    requires k > 0
    ensures Rounds(k) == Seq(ROUND, Rounds(k - 1))
  {
  }

  lemma {:induction false} RoundsTry(k: nat, s: string, x: At, i: nat)
    requires Marked(s, x, i)
    ensures Try(Rounds(k), s, x).Some? <==> Only(s[i], s[x.pos..]) && Count(s[i], s[x.pos..]) >= k
    decreases k
  {
    hide *;
    MarkedIs(s, x, i);
    if k == 0 {
      RestTry(s, x, i);
    } else {
      RoundTry(s, x, i);
      SingleIs(ROUND, s, x);
      RoundsMore(k);
      SeqSingle(ROUND, Rounds(k - 1), s, x);
      BehindMark(s, x.pos, s[i]);
      var e := Stop(IsSpace, s, x.pos);
      if e < |s| && s[e] == s[i] {
        MarkedOn(s, x, i, e + 1);
        RoundsTry(k - 1, s, x.(pos := e + 1), i);
      }
    }
  }

  lemma SingleIs(a: Regex, s: string, x: At)
    requires OneRound(a, s, x)
    ensures |Ends(a, s, x)| <= 1
  {
  }

  lemma RuleIs(line: string, i: nat)
    requires i == Run(IsSpace, line)
    ensures IsRule(line) <==>
      i <= 3 && i < |line| && IsRuleMark(line[i]) && Only(line[i], line[i + 1..]) && Count(line[i], line[i + 1..]) >= 2
  {
    hide IsSpace, Count;
    if i < |line| {
      var after := line[i + 1..];
      assert forall k | i < k < |line| :: line[k] == after[k - i - 1];
      CountAt(line[i], line, i);
    }
  }

  /** A rule is recognised exactly if the expression, with its backreference, matches. */
  lemma RuleMatches(line: string)
    ensures IsRule(line) <==> Exec(RULE_EXPRESSION, line).Some?
  {
    hide *;
    RuleStart(line);
    var i := Run(IsSpace, line);
    RuleIs(line, i);
    RuleMarkTry(line, i);
  }

  lemma RuleMarkTry(line: string, i: nat)
    requires i <= |line|
    ensures Try(Seq(Group(Class(IsRuleMark)), Rounds(2)), line, At(i, [])).Some?
       <==> i < |line| && IsRuleMark(line[i]) && Only(line[i], line[i + 1..]) && Count(line[i], line[i + 1..]) >= 2
  {
    RuleMarkSteps(line, At(i, []));
    hide Try, Rounds, Count, Only, IsSpace;
    SignsAreNoSpace();
    assert [] + [i, i + 1] == [i, i + 1];
    if i < |line| && IsRuleMark(line[i]) { RoundsTry(2, line, At(i + 1, [i, i + 1]), i); }
  }

  lemma RuleMarkSteps(line: string, x: At)
    ensures Try(Seq(Group(Class(IsRuleMark)), Rounds(2)), line, x)
         == if x.pos < |line| && IsRuleMark(line[x.pos])
            then Try(Rounds(2), line, At(x.pos + 1, x.marks + [x.pos, x.pos + 1])) else None
  {
    hide Try, Rounds, IsRuleMark;
    SeqGroup(Class(IsRuleMark), Rounds(2), line, x);
    SeqClass(IsRuleMark, Seq(Mark, Rounds(2)), line, At(x.pos, x.marks + [x.pos]));
    SeqMark(Rounds(2), line, At(x.pos + 1, x.marks + [x.pos]));
    assert x.marks + [x.pos] + [x.pos + 1] == x.marks + [x.pos, x.pos + 1];
  }

  lemma RuleStart(line: string)
    ensures var i := Run(IsSpace, line);
      Exec(RULE_EXPRESSION, line)
         == if i <= 3 then Try(Seq(Group(Class(IsRuleMark)), Rounds(2)), line, At(i, [])) else None
  {
    hide Exec, Try, Rounds, IsSpace, UpTo, Run;
    SignsAreNoSpace();
    var b := Seq(Group(Class(IsRuleMark)), Rounds(2));
    forall x: At | x.pos < |line| && IsSpace(line[x.pos]) ensures Try(b, line, x).None? { RuleMarkSteps(line, x); }
    Indented(b, line);
  }
}
