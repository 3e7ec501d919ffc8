/** Regular expressions as JavaScript matches them: by backtracking, with an order of preference. What an expression
    can do from a position is the list of all its outcomes, the preferred one first (the matcher of section 22.2.2 of
    ECMAScript, with the list of successes in place of continuations). */
module Regex {
  import opened Text

  /** `Test` consumes nothing (`^`, `$`, `\b`); `Mark` records a position, so that a group's text lies between two
      marks; `Back` is a backreference to the text between two marks. */
  datatype Regex =
    | Empty
    | Class(p: char -> bool)
    | Test(q: (string, nat) -> bool)
    | Mark
    | Back(start: nat, end: nat)
    | Seq(first: Regex, second: Regex)
    | Alt(left: Regex, right: Regex)
    | Star(body: Regex, lazy: bool)

  /** A position in the string and the positions marked on the way there. */
  datatype At = At(pos: nat, marks: seq<nat>)

  function Left(s: string, x: At): nat { if x.pos <= |s| then |s| - x.pos else 0 }

  /** All outcomes of `r` from `x`, in order of preference. */
  function Ends(r: Regex, s: string, x: At): seq<At>
    decreases r, Left(s, x), 1, 0
  {
    match r
    case Empty => [x]
    case Class(p) => if x.pos < |s| && p(s[x.pos]) then [x.(pos := x.pos + 1)] else []
    case Test(q) => if q(s, x.pos) then [x] else []
    case Mark => [x.(marks := x.marks + [x.pos])]
    case Back(i, j) =>
      if i < |x.marks| && j < |x.marks| && x.marks[i] <= x.marks[j] <= |s| && x.pos <= |s|
         && s[x.marks[i]..x.marks[j]] <= s[x.pos..]
      then [x.(pos := x.pos + (x.marks[j] - x.marks[i]))] else []
    case Seq(first, second) => Bind(Ends(first, s, x), second, s)
    case Alt(left, right) => Ends(left, s, x) + Ends(right, s, x)
    case Star(body, lazy) =>
      var more := Again(Ends(body, s, x), r, s, x);
      if lazy then [x] + more else more + [x]
  }

  function Bind(xs: seq<At>, r: Regex, s: string): seq<At>
    decreases r, |s| + 1, 0, |xs|
  {
    if xs == [] then [] else Ends(r, s, xs[0]) + Bind(xs[1..], r, s)
  }

  /** A repetition goes on only from where its body has consumed something. */
  function Again(xs: seq<At>, star: Regex, s: string, from: At): seq<At>
    decreases star, Left(s, from), 0, |xs|
  {
    if xs == [] then []
    else
      (if from.pos < xs[0].pos <= |s| then Ends(star, s, xs[0]) else []) + Again(xs[1..], star, s, from)
  }

  function First(xs: seq<At>): Option<At> { if xs == [] then None else Some(xs[0]) }

  /** What a matcher finds at `x`: the preferred outcome. */
  function Try(r: Regex, s: string, x: At): Option<At> { First(Ends(r, s, x)) }

  /** What `exec` finds with an expression that begins with `^`. */
  function Exec(r: Regex, s: string): Option<At> { Try(r, s, At(0, [])) }

  /** The text between two marks. */
  function Between(s: string, m: At, i: nat, j: nat): string {
    if i < |m.marks| && j < |m.marks| && m.marks[i] <= m.marks[j] <= |s| then s[m.marks[i]..m.marks[j]] else ""
  }

  /** `value.replace(r, sub)` with a global expression that never matches the empty string: the matches from left to
      right, each search going on behind the last match. `tokens` is what the replacer has set aside. */
  function ReplaceAll(r: Regex, s: string, from: nat, tokens: seq<string>,
                      sub: (At, seq<string>) -> (string, seq<string>)): (string, seq<string>)
    requires from <= |s|
    decreases |s| - from
  {
    if from == |s| then ("", tokens)
    else
      match Try(r, s, At(from, []))
      case Some(m) =>
        if from < m.pos <= |s| then
          var (text, more) := sub(m, tokens);
          var (rest, all) := ReplaceAll(r, s, m.pos, more, sub);
          (text + rest, all)
        else ("", tokens)
      case None =>
        var (rest, all) := ReplaceAll(r, s, from + 1, tokens, sub);
        ([s[from]] + rest, all)
  }

  // --- Notation ------------------------------------------------------------------------------------

  function Is(c: char): char -> bool { x => x == c }

  const DOT: char -> bool := c => !IsLineTerminator(c)

  /** `.` matches every character but the four that end a line. */
  lemma DotMatches(c: char)
    ensures DOT(c) <==> c !in {'\n', '\r', '\U{2028}', '\U{2029}'}
  {
  }

  const BEGIN: Regex := Test((_, i) => i == 0)

  const END: Regex := Test((s, i) => i == |s|)

  /** `(r)` */
  function Group(r: Regex): Regex { Seq(Mark, Seq(r, Mark)) }

  function Many(p: char -> bool): Regex { Star(Class(p), false) }

  /** `p{0,n}` */
  function UpTo(n: nat, p: char -> bool): Regex {
    if n == 0 then Empty else Alt(Seq(Class(p), UpTo(n - 1, p)), Empty)
  }

  /** `p{n,}` */
  function AtLeast(n: nat, p: char -> bool): Regex {
    if n == 0 then Many(p) else Seq(Class(p), AtLeast(n - 1, p))
  }

  /** `r?` */
  function Maybe(r: Regex): Regex { Alt(r, Empty) }

  // --- How outcomes compose ------------------------------------------------------------------------

  function Or(a: Option<At>, b: Option<At>): Option<At> { if a.Some? then a else b }

  lemma OrIs(a: Option<At>, b: Option<At>)
    ensures Or(a, b) == if a.Some? then a else b
  {
  }

  lemma FirstConcat(xs: seq<At>, ys: seq<At>)
    ensures First(xs + ys) == Or(First(xs), First(ys))
  {
  }

  lemma {:induction false} BindConcat(xs: seq<At>, ys: seq<At>, r: Regex, s: string)
    ensures Bind(xs + ys, r, s) == Bind(xs, r, s) + Bind(ys, r, s)
    decreases |xs|
  {
    hide Ends;
    if xs == [] {
      assert xs + ys == ys;
    } else {
      assert (xs + ys)[1..] == xs[1..] + ys;
      BindConcat(xs[1..], ys, r, s);
    }
  }

  lemma BindOne(x: At, r: Regex, s: string)
    ensures Bind([x], r, s) == Ends(r, s, x)
  {
    hide Ends;
    assert [x][1..] == [] && Bind([], r, s) == [];
  }

  lemma BindNone(r: Regex, s: string)
    ensures Bind([], r, s) == []
  {
  }

  lemma SeqEnds(a: Regex, b: Regex, s: string, x: At)
    ensures Ends(Seq(a, b), s, x) == Bind(Ends(a, s, x), b, s)
  {
    hide Bind, Again;
  }

  lemma {:induction false} BindSeq(xs: seq<At>, a: Regex, b: Regex, s: string)
    ensures Bind(xs, Seq(a, b), s) == Bind(Bind(xs, a, s), b, s)
    decreases |xs|
  {
    hide Ends;
    if xs == [] {
      BindNone(b, s);
    } else {
      SeqEnds(a, b, s, xs[0]);
      BindConcat(Ends(a, s, xs[0]), Bind(xs[1..], a, s), b, s);
      BindSeq(xs[1..], a, b, s);
    }
  }

  lemma SeqAssoc(a: Regex, b: Regex, c: Regex, s: string, x: At)
    ensures Try(Seq(Seq(a, b), c), s, x) == Try(Seq(a, Seq(b, c)), s, x)
  {
    hide Ends, Bind;
    SeqEnds(Seq(a, b), c, s, x);
    SeqEnds(a, b, s, x);
    SeqEnds(a, Seq(b, c), s, x);
    BindSeq(Ends(a, s, x), b, c, s);
  }

  lemma SeqAlt(a: Regex, b: Regex, c: Regex, s: string, x: At)
    ensures Try(Seq(Alt(a, b), c), s, x) == Or(Try(Seq(a, c), s, x), Try(Seq(b, c), s, x))
  {
    hide Bind;
    BindConcat(Ends(a, s, x), Ends(b, s, x), c, s);
    hide Ends;
    AltEnds(a, b, s, x);
    SeqEnds(Alt(a, b), c, s, x);
    SeqEnds(a, c, s, x);
    SeqEnds(b, c, s, x);
    FirstConcat(Bind(Ends(a, s, x), c, s), Bind(Ends(b, s, x), c, s));
  }

  lemma AltEnds(a: Regex, b: Regex, s: string, x: At)
    ensures Ends(Alt(a, b), s, x) == Ends(a, s, x) + Ends(b, s, x)
  {
    hide Bind, Again;
  }

  lemma AltTry(a: Regex, b: Regex, s: string, x: At)
    ensures Try(Alt(a, b), s, x) == Or(Try(a, s, x), Try(b, s, x))
  {
    hide Ends;
    AltEnds(a, b, s, x);
  }

  /** A factor with one outcome or none. */
  lemma SeqSingle(a: Regex, b: Regex, s: string, x: At)
    requires |Ends(a, s, x)| <= 1
    ensures Try(Seq(a, b), s, x) == if Try(a, s, x).Some? then Try(b, s, Try(a, s, x).value) else None
  {
    hide Ends;
    SeqEnds(a, b, s, x);
    if Ends(a, s, x) == [] {
      BindNone(b, s);
    } else {
      assert Ends(a, s, x) == [Ends(a, s, x)[0]];
      BindOne(Ends(a, s, x)[0], b, s);
    }
  }

  lemma SeqEmpty(b: Regex, s: string, x: At)
    ensures Try(Seq(Empty, b), s, x) == Try(b, s, x)
  {
    SeqSingle(Empty, b, s, x);
  }

  lemma SeqClass(p: char -> bool, b: Regex, s: string, x: At)
    ensures Try(Seq(Class(p), b), s, x)
         == if x.pos < |s| && p(s[x.pos]) then Try(b, s, x.(pos := x.pos + 1)) else None
  {
    SeqSingle(Class(p), b, s, x);
  }

  lemma ClassTry(p: char -> bool, s: string, x: At)
    ensures Try(Class(p), s, x) == if x.pos < |s| && p(s[x.pos]) then Some(x.(pos := x.pos + 1)) else None
  {
  }

  lemma IsAll(mark: char)
    ensures forall c: char :: Is(mark)(c) <==> c == mark
  {
  }

  lemma SeqMark(b: Regex, s: string, x: At)
    ensures Try(Seq(Mark, b), s, x) == Try(b, s, x.(marks := x.marks + [x.pos]))
  {
    SeqSingle(Mark, b, s, x);
  }

  lemma SeqTest(q: (string, nat) -> bool, b: Regex, s: string, x: At)
    ensures Try(Seq(Test(q), b), s, x) == if q(s, x.pos) then Try(b, s, x) else None
  {
    SeqSingle(Test(q), b, s, x);
  }

  lemma SeqGroup(a: Regex, b: Regex, s: string, x: At)
    ensures Try(Seq(Group(a), b), s, x) == Try(Seq(a, Seq(Mark, b)), s, x.(marks := x.marks + [x.pos]))
  {
    hide Try;
    SeqAssoc(Mark, Seq(a, Mark), b, s, x);
    SeqMark(Seq(Seq(a, Mark), b), s, x);
    SeqAssoc(a, Mark, b, s, x.(marks := x.marks + [x.pos]));
  }

  // --- Repetition ----------------------------------------------------------------------------------

  /** A body with one outcome or none, which consumes something. */
  predicate OneRound(a: Regex, s: string, x: At) {
    |Ends(a, s, x)| <= 1 && (Try(a, s, x).Some? ==> x.pos < Try(a, s, x).value.pos <= |s|)
  }

  lemma StarEnds(a: Regex, lazy: bool, s: string, x: At)
    requires OneRound(a, s, x)
    ensures var more := if Try(a, s, x).Some? then Ends(Star(a, lazy), s, Try(a, s, x).value) else [];
      Ends(Star(a, lazy), s, x) == if lazy then [x] + more else more + [x]
  {
    var star := Star(a, lazy);
    if Try(a, s, x).Some? {
      var y := Try(a, s, x).value;
      assert Ends(a, s, x) == [y];
      assert Again([y], star, s, x) == Ends(star, s, y) + Again([y][1..], star, s, x);
    }
  }

  /** One more round first, or the rest first. */
  lemma StarStep(a: Regex, lazy: bool, b: Regex, s: string, x: At)
    requires OneRound(a, s, x)
    ensures var star := Seq(Star(a, lazy), b);
      var more := if Try(a, s, x).Some? then Try(star, s, Try(a, s, x).value) else None;
      Try(star, s, x) == if lazy then Or(Try(b, s, x), more) else Or(more, Try(b, s, x))
  {
    StarEnds(a, lazy, s, x);
    hide Ends, Bind, First, OneRound;
    var star := Star(a, lazy);
    var round := Try(a, s, x);
    var more := if round.Some? then Ends(star, s, round.value) else [];
    SeqEnds(star, b, s, x);
    if round.Some? { SeqEnds(star, b, s, round.value); }
    BindOne(x, b, s);
    BindNone(b, s);
    FirstNone();
    if lazy {
      BindConcat([x], more, b, s);
      FirstConcat(Ends(b, s, x), Bind(more, b, s));
    } else {
      BindConcat(more, [x], b, s);
      FirstConcat(Bind(more, b, s), Ends(b, s, x));
    }
  }

  lemma ManyStep(p: char -> bool, lazy: bool, b: Regex, s: string, x: At)
    ensures var star := Seq(Star(Class(p), lazy), b);
      var more := if x.pos < |s| && p(s[x.pos]) then Try(star, s, x.(pos := x.pos + 1)) else None;
      Try(star, s, x) == if lazy then Or(Try(b, s, x), more) else Or(more, Try(b, s, x))
  {
    StarStep(Class(p), lazy, b, s, x);
  }

  lemma FirstNone()
    ensures First([]) == None
  {
  }

  /** The end of the characters from `i` on that satisfy `p`. */
  function Stop(p: char -> bool, s: string, i: nat): (e: nat)
    requires i <= |s|
    ensures i <= e <= |s|
    ensures forall k | i <= k < e :: p(s[k])
    ensures e < |s| ==> !p(s[e])
  {
    var n := Run(p, s[i..]);
    assert forall k | i <= k < i + n :: s[k] == s[i..][k - i];
    i + n
  }

  predicate AllIn(p: char -> bool, s: string, i: nat, k: nat)
    requires k <= |s|
  {
    forall j | i <= j < k :: p(s[j])
  }

  lemma NotPast(p: char -> bool, s: string, i: nat)
    requires i <= |s|
    ensures forall k | Stop(p, s, i) < k <= |s| :: !AllIn(p, s, i, k)
  {
    hide Run;
    var e := Stop(p, s, i);
    forall k | e < k <= |s| ensures !AllIn(p, s, i, k) { assert !p(s[e]); }
  }

  lemma StopIs(p: char -> bool, s: string, i: nat, e: nat)
    requires i <= e <= |s| && (forall k | i <= k < e :: p(s[k])) && (e < |s| ==> !p(s[e]))
    ensures Stop(p, s, i) == e
  {
    hide Run;
    var f := Stop(p, s, i);
  }

  lemma StopStep(p: char -> bool, s: string, i: nat)
    requires i <= |s|
    ensures i < Stop(p, s, i) <==> i < |s| && p(s[i])
    ensures i < Stop(p, s, i) ==> Stop(p, s, i + 1) == Stop(p, s, i)
  {
    hide Run;
    if i < Stop(p, s, i) { StopIs(p, s, i + 1, Stop(p, s, i)); }
  }

  lemma StopRun(p: char -> bool, s: string, i: nat)
    requires i <= |s|
    ensures Stop(p, s, i) == i + Run(p, s[i..])
  {
  }

  lemma AllInOne(p: char -> bool, s: string, i: nat)
    ensures i < |s| ==> (AllIn(p, s, i, i + 1) <==> p(s[i]))
  {
  }

  lemma AllBefore(p: char -> bool, s: string, i: nat, e: nat, n: nat)
    requires i <= n <= e <= |s| && forall k | i <= k < e :: p(s[k])
    ensures AllIn(p, s, i, n)
  {
  }

  lemma SuffixOf(s: string, i: nat, k: nat)
    requires i + k <= |s|
    ensures s[i..][k..] == s[i + k..] && (i < |s| ==> s[i..][0] == s[i])
  {
  }

  /** With nothing behind it a greedy repetition takes the whole run. */
  lemma {:induction false} ManyAlone(p: char -> bool, s: string, x: At)
    requires x.pos <= |s|
    ensures Try(Many(p), s, x) == Some(x.(pos := Stop(p, s, x.pos)))
    decreases |s| - x.pos
  {
    StarEnds(Class(p), false, s, x);
    StopStep(p, s, x.pos);
    hide Ends, Run;
    if x.pos < |s| && p(s[x.pos]) { ManyAlone(p, s, x.(pos := x.pos + 1)); }
  }

  /** A greedy repetition takes as many characters as leave a match for the rest. */
  lemma {:induction false} Greedy(p: char -> bool, b: Regex, s: string, x: At, e: nat)
    requires x.pos <= e <= |s| && AllIn(p, s, x.pos, e)
    requires Try(b, s, x.(pos := e)).Some?
    requires forall k | e < k <= |s| && AllIn(p, s, x.pos, k) :: Try(b, s, x.(pos := k)).None?
    ensures Try(Seq(Many(p), b), s, x) == Try(b, s, x.(pos := e))
    decreases |s| - x.pos
  {
    hide Try;
    ManyStep(p, false, b, s, x);
    if x.pos < e {
      Greedy(p, b, s, x.(pos := x.pos + 1), e);
      assert x.(pos := x.pos + 1).(pos := e) == x.(pos := e);
    } else if x.pos < |s| && p(s[x.pos]) {
      var y := x.(pos := x.pos + 1);
      forall k | y.pos <= k <= |s| && AllIn(p, s, y.pos, k) ensures Try(b, s, y.(pos := k)).None? {
        assert y.(pos := k) == x.(pos := k);
      }
      GreedyFails(p, b, s, y);
    }
  }

  lemma {:induction false} GreedyFails(p: char -> bool, b: Regex, s: string, x: At)
    requires x.pos <= |s|
    requires forall k | x.pos <= k <= |s| && AllIn(p, s, x.pos, k) :: Try(b, s, x.(pos := k)).None?
    ensures Try(Seq(Many(p), b), s, x).None?
    decreases |s| - x.pos
  {
    hide Try;
    ManyStep(p, false, b, s, x);
    assert x.(pos := x.pos) == x;
    if x.pos < |s| && p(s[x.pos]) {
      var y := x.(pos := x.pos + 1);
      forall k | y.pos <= k <= |s| && AllIn(p, s, y.pos, k) ensures Try(b, s, y.(pos := k)).None? {
        assert y.(pos := k) == x.(pos := k);
      }
      GreedyFails(p, b, s, y);
    }
  }

  /** The rest cannot begin with a `p`: the repetition takes the whole run. */
  lemma GreedyRun(p: char -> bool, b: Regex, s: string, x: At)
    requires x.pos <= |s|
    requires forall k | x.pos <= k < Stop(p, s, x.pos) :: Try(b, s, x.(pos := k)).None?
    ensures Try(Seq(Many(p), b), s, x) == Try(b, s, x.(pos := Stop(p, s, x.pos)))
  {
    hide Try, Run;
    var e := Stop(p, s, x.pos);
    NotPast(p, s, x.pos);
    if Try(b, s, x.(pos := e)).Some? { Greedy(p, b, s, x, e); } else { GreedyFails(p, b, s, x); }
  }

  /** The rest matches after the whole run: the repetition takes it. */
  lemma GreedyAll(p: char -> bool, b: Regex, s: string, x: At)
    requires x.pos <= |s| && Try(b, s, x.(pos := Stop(p, s, x.pos))).Some?
    ensures Try(Seq(Many(p), b), s, x) == Try(b, s, x.(pos := Stop(p, s, x.pos)))
  {
    hide Try, Run;
    var e := Stop(p, s, x.pos);
    NotPast(p, s, x.pos);
    Greedy(p, b, s, x, e);
  }

  /** A lazy repetition takes as few characters as leave a match for the rest. */
  lemma {:induction false} Lazy(p: char -> bool, b: Regex, s: string, x: At, e: nat)
    requires x.pos <= e <= |s| && (forall k | x.pos <= k < e :: p(s[k]) && Try(b, s, x.(pos := k)).None?)
    requires Try(b, s, x.(pos := e)).Some? || e == |s| || !p(s[e])
    ensures Try(Seq(Star(Class(p), true), b), s, x) == Try(b, s, x.(pos := e))
    decreases e - x.pos
  {
    hide Try;
    ManyStep(p, true, b, s, x);
    assert x.(pos := x.pos) == x;
    if x.pos < e {
      var y := x.(pos := x.pos + 1);
      forall k | y.pos <= k < e ensures Try(b, s, y.(pos := k)).None? { assert y.(pos := k) == x.(pos := k); }
      Lazy(p, b, s, y, e);
      assert y.(pos := e) == x.(pos := e);
    }
  }

  /** `p{0,n}` before a rest that cannot begin with a `p`. */
  lemma {:induction false} UpToRun(n: nat, p: char -> bool, b: Regex, s: string, x: At)
    requires x.pos <= |s|
    requires forall k | x.pos <= k < Stop(p, s, x.pos) :: Try(b, s, x.(pos := k)).None?
    ensures var e := Stop(p, s, x.pos);
      Try(Seq(UpTo(n, p), b), s, x) == if e - x.pos <= n then Try(b, s, x.(pos := e)) else None
    decreases n
  {
    hide Try, Run;
    var e := Stop(p, s, x.pos);
    assert x.(pos := x.pos) == x;
    SeqEmpty(b, s, x);
    if n > 0 {
      var y := x.(pos := x.pos + 1);
      SeqAlt(Seq(Class(p), UpTo(n - 1, p)), Empty, b, s, x);
      SeqAssoc(Class(p), UpTo(n - 1, p), b, s, x);
      SeqClass(p, Seq(UpTo(n - 1, p), b), s, x);
      if x.pos < e {
        StopIs(p, s, y.pos, e);
        forall k | y.pos <= k < e ensures Try(b, s, y.(pos := k)).None? { assert y.(pos := k) == x.(pos := k); }
        UpToRun(n - 1, p, b, s, y);
        assert y.(pos := e) == x.(pos := e);
      }
    }
  }

  /** `p{n,}` is `n` of them and then as many as possible. */
  lemma {:induction false} AtLeastStep(n: nat, p: char -> bool, b: Regex, s: string, x: At)
    requires x.pos <= |s|
    ensures Try(Seq(AtLeast(n, p), b), s, x)
         == if x.pos + n <= |s| && AllIn(p, s, x.pos, x.pos + n)
            then Try(Seq(Many(p), b), s, x.(pos := x.pos + n)) else None
    decreases n
  {
    hide Try;
    assert x.(pos := x.pos) == x;
    if n > 0 {
      var y := x.(pos := x.pos + 1);
      SeqAssoc(Class(p), AtLeast(n - 1, p), b, s, x);
      SeqClass(p, Seq(AtLeast(n - 1, p), b), s, x);
      if x.pos < |s| && p(s[x.pos]) {
        AtLeastStep(n - 1, p, b, s, y);
        assert y.(pos := y.pos + (n - 1)) == x.(pos := x.pos + n);
      }
    }
  }

  // --- Replacement ---------------------------------------------------------------------------------

  lemma ReplaceHit(r: Regex, s: string, from: nat, tokens: seq<string>, sub: (At, seq<string>) -> (string, seq<string>),
                   m: At)
    requires from < m.pos <= |s| && Try(r, s, At(from, [])) == Some(m)
    ensures var rest := ReplaceAll(r, s, m.pos, sub(m, tokens).1, sub);
      ReplaceAll(r, s, from, tokens, sub) == (sub(m, tokens).0 + rest.0, rest.1)
  {
    hide Try;
  }

  lemma ReplaceMiss(r: Regex, s: string, from: nat, tokens: seq<string>, sub: (At, seq<string>) -> (string, seq<string>))
    requires from < |s| && Try(r, s, At(from, [])).None?
    ensures var rest := ReplaceAll(r, s, from + 1, tokens, sub);
      ReplaceAll(r, s, from, tokens, sub) == ([s[from]] + rest.0, rest.1)
  {
    hide Try;
  }

  lemma ReplaceEnd(r: Regex, s: string, tokens: seq<string>, sub: (At, seq<string>) -> (string, seq<string>))
    ensures ReplaceAll(r, s, |s|, tokens, sub) == ("", tokens)
  {
  }

  lemma BetweenIs(s: string, m: At, i: nat, j: nat, a: nat, b: nat)
    requires i < |m.marks| && j < |m.marks| && m.marks[i] == a && m.marks[j] == b && a <= b <= |s|
    ensures Between(s, m, i, j) == s[a..b]
  {
  }
}
