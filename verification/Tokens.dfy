/** The tokens of `Highlight` against the regular expression of `highlightCode`, alternative by alternative. */
module Tokens {
  import opened Text
  import opened Escaping
  import opened Html
  import opened Regex
  import opened Highlight

  // --- The expression ------------------------------------------------------------------------------

  const ANY: char -> bool := c => true

  const NOT_NEWLINE: char -> bool := c => c != '\n'

  predicate IsX(c: char) { c == 'x' || c == 'X' }

  predicate StartsName(c: char) { IsNameChar(c) && !IsDigit(c) }

  function Plain(quote: char): char -> bool { c => c != quote && c != '\\' }

  /** The classes of the expression by code point: `\d`, `\w`, `[\w$]` and `[\da-f]` ignoring case. */
  lemma CharacterClasses(c: char, code: int)
    requires code == c as int
    ensures IsDigit(c) <==> 48 <= code <= 57
    ensures IsWord(c) <==> 48 <= code <= 57 || 65 <= code <= 90 || 97 <= code <= 122 || code == 95
    ensures IsNameChar(c) <==> IsWord(c) || code == 36
    ensures IsHex(c) <==> 48 <= code <= 57 || 65 <= code <= 70 || 97 <= code <= 102
  {
  }

  /** `\b` */
  const EDGE: Regex := Test(AtEdge)

  predicate AtEdge(s: string, i: nat) { (0 < i <= |s| && IsWord(s[i - 1])) != (i < |s| && IsWord(s[i])) }

  lemma EdgesAreBoundaries(s: string, i: nat)
    ensures AtEdge(s, i) <==> Boundary(s, i)
  {
  }

  const COMMENT_END: Regex := Seq(Class(Is('*')), Class(Is('/')))

  /** `\/\*[\s\S]*?\*\/` */
  const COMMENT: Regex := Seq(Class(Is('/')), Seq(Class(Is('*')), Seq(Star(Class(ANY), true), COMMENT_END)))

  /** `cc[^\n]*` */
  function LineOf(c: char): Regex { Seq(Class(Is(c)), Seq(Class(Is(c)), Many(NOT_NEWLINE))) }

  /** `#[^\n]*` */
  const HASH_LINE: Regex := Seq(Class(Is('#')), Many(NOT_NEWLINE))

  /** `\\.|[^q\\]` */
  function QuotedPart(quote: char): Regex { Alt(Seq(Class(Is('\\')), Class(DOT)), Class(Plain(quote))) }

  function QuotedRest(quote: char): Regex { Seq(Star(QuotedPart(quote), false), Class(Is(quote))) }

  /** `q(?:\\.|[^q\\])*q` */
  function Quoted(quote: char): Regex { Seq(Class(Is(quote)), QuotedRest(quote)) }

  /** `0x[\da-f]+`, ignoring case */
  const HEX: Regex := Seq(Class(Is('0')), Seq(Class(IsX), AtLeast(1, IsHex)))

  /** `\.\d+` */
  const FRACTION: Regex := Seq(Class(Is('.')), AtLeast(1, IsDigit))

  /** `\d+(?:\.\d+)?` */
  const DECIMAL: Regex := Seq(AtLeast(1, IsDigit), Maybe(FRACTION))

  /** `\b(?:0x[\da-f]+|\d+(?:\.\d+)?)\b` */
  const NUMBER: Regex := Seq(EDGE, Seq(Alt(HEX, DECIMAL), EDGE))

  /** `\b[A-Za-z_$][\w$]*\b` */
  const NAME: Regex := Seq(EDGE, Seq(Class(StartsName), Seq(Many(IsNameChar), EDGE)))

  const WORD: Regex := Alt(NUMBER, NAME)

  const STRING: Regex := Alt(Quoted('"'), Alt(Quoted('\''), Alt(Quoted('`'), WORD)))

  const TOKEN: Regex := Alt(COMMENT, Alt(LineOf('/'), Alt(HASH_LINE, Alt(LineOf('-'), STRING))))

  // --- Each alternative ----------------------------------------------------------------------------

  /** A match from `i` to `e`, or none if `e` is 0. */
  function Found(e: nat): Option<At> { if e > 0 then Some(At(e, [])) else None }

  lemma FoundIs(e: nat)
    ensures Found(e) == if e > 0 then Some(At(e, [])) else None
  {
  }

  lemma CommentEndTry(s: string, p: nat)
    ensures Try(COMMENT_END, s, At(p, []))
         == if p + 1 < |s| && s[p] == '*' && s[p + 1] == '/' then Some(At(p + 2, [])) else None
  {
    hide Try;
    SeqClass(Is('*'), Class(Is('/')), s, At(p, []));
    ClassTry(Is('/'), s, At(p + 1, []));
  }

  lemma {:induction false} CommentRest(s: string, p: nat)
    ensures Try(Seq(Star(Class(ANY), true), COMMENT_END), s, At(p, [])) == Found(CommentClose(s, p))
    decreases |s| - p
  {
    hide Try, COMMENT_END;
    ManyStep(ANY, true, COMMENT_END, s, At(p, []));
    CommentEndTry(s, p);
    if p < |s| { CommentRest(s, p + 1); }
  }

  lemma CommentTry(s: string, i: nat)
    ensures Try(COMMENT, s, At(i, []))
         == if i + 1 < |s| && s[i] == '/' && s[i + 1] == '*' then Found(CommentClose(s, i + 2)) else None
  {
    hide Try, COMMENT_END, CommentClose;
    var rest := Seq(Star(Class(ANY), true), COMMENT_END);
    SeqClass(Is('/'), Seq(Class(Is('*')), rest), s, At(i, []));
    SeqClass(Is('*'), rest, s, At(i + 1, []));
    CommentRest(s, i + 2);
  }

  lemma LineTry(s: string, i: nat)
    requires 0 < i <= |s|
    ensures Try(Many(NOT_NEWLINE), s, At(i, [])) == Found(LineEnd(s, i))
  {
    ManyAlone(NOT_NEWLINE, s, At(i, []));
    var e := LineEnd(s, i);
    forall k | i <= k < e ensures NOT_NEWLINE(s[k]) { assert s[k] == s[i..][k - i]; }
    if e < |s| { assert s[e] == s[i..][e - i]; }
    StopIs(NOT_NEWLINE, s, i, e);
    hide Try, Run;
  }

  lemma LineOfTry(c: char, s: string, i: nat)
    ensures Try(LineOf(c), s, At(i, []))
         == if i + 1 < |s| && s[i] == c && s[i + 1] == c then Found(LineEnd(s, i + 2)) else None
  {
    hide Try, Many, LineEnd;
    SeqClass(Is(c), Seq(Class(Is(c)), Many(NOT_NEWLINE)), s, At(i, []));
    SeqClass(Is(c), Many(NOT_NEWLINE), s, At(i + 1, []));
    if i + 2 <= |s| { LineTry(s, i + 2); }
  }

  lemma HashTry(s: string, i: nat)
    ensures Try(HASH_LINE, s, At(i, [])) == if i < |s| && s[i] == '#' then Found(LineEnd(s, i + 1)) else None
  {
    hide Try, Many, LineEnd;
    SeqClass(Is('#'), Many(NOT_NEWLINE), s, At(i, []));
    if i + 1 <= |s| { LineTry(s, i + 1); }
  }

  /** The alternatives in a quoted text begin with different characters. */
  lemma PartTry(quote: char, s: string, x: At)
    requires quote != '\\' && x.pos <= |s|
    ensures OneRound(QuotedPart(quote), s, x)
    ensures Try(QuotedPart(quote), s, x)
         == if x.pos + 1 < |s| && s[x.pos] == '\\' && !IsLineTerminator(s[x.pos + 1]) then Some(x.(pos := x.pos + 2))
            else if x.pos < |s| && s[x.pos] != '\\' && s[x.pos] != quote then Some(x.(pos := x.pos + 1)) else None
  {
    hide IsLineTerminator;
    var escape := Seq(Class(Is('\\')), Class(DOT));
    SeqEnds(Class(Is('\\')), Class(DOT), s, x);
    if x.pos < |s| && s[x.pos] == '\\' { BindOne(x.(pos := x.pos + 1), Class(DOT), s); }
    BindNone(Class(DOT), s);
    AltEnds(escape, Class(Plain(quote)), s, x);
  }

  lemma {:induction false} QuotedRestTry(quote: char, s: string, p: nat)
    requires quote != '\\' && p <= |s|
    ensures Try(QuotedRest(quote), s, At(p, [])) == Found(QuoteClose(s, quote, p))
    decreases |s| - p
  {
    hide Try, OneRound, QuotedPart, IsLineTerminator;
    var x := At(p, []);
    PartTry(quote, s, x);
    StarStep(QuotedPart(quote), false, Class(Is(quote)), s, x);
    ClassTry(Is(quote), s, x);
    if p + 1 < |s| && s[p] == '\\' && !IsLineTerminator(s[p + 1]) {
      QuotedRestTry(quote, s, p + 2);
    } else if p < |s| && s[p] != '\\' && s[p] != quote {
      QuotedRestTry(quote, s, p + 1);
    }
  }

  lemma QuotedTry(quote: char, s: string, i: nat)
    requires quote != '\\'
    ensures Try(Quoted(quote), s, At(i, []))
         == if i < |s| && s[i] == quote then Found(QuoteClose(s, quote, i + 1)) else None
  {
    hide Try, QuotedRest, QuoteClose;
    SeqClass(Is(quote), QuotedRest(quote), s, At(i, []));
    if i + 1 <= |s| { QuotedRestTry(quote, s, i + 1); }
  }

  // --- Numbers and names ---------------------------------------------------------------------------

  lemma EdgeTry(s: string, x: At)
    ensures Try(EDGE, s, x) == if Boundary(s, x.pos) then Some(x) else None
  {
    EdgesAreBoundaries(s, x.pos);
  }

  lemma SeqEdge(b: Regex, s: string, x: At)
    ensures Try(Seq(EDGE, b), s, x) == if Boundary(s, x.pos) then Try(b, s, x) else None
  {
    EdgesAreBoundaries(s, x.pos);
    hide Try, Boundary, AtEdge;
    SeqTest(AtEdge, b, s, x);
  }

  /** Between two characters of a word there is no boundary, and behind one there is exactly if no other follows. */
  lemma NoEdgeInside(s: string, i: nat)
    ensures 0 < i && WordAt(s, i - 1) ==> (Boundary(s, i) <==> !WordAt(s, i))
    ensures WordAt(s, i) ==> (Boundary(s, i) <==> !WordAt(s, i - 1))
  {
  }

  lemma DigitsAreWords()
    ensures forall c: char :: IsDigit(c) ==> IsHex(c) && IsWord(c) && IsNameChar(c)
    ensures forall c: char :: IsHex(c) ==> IsWord(c)
  {
  }

  /** A run of word characters up to the next boundary: `p+\b`. */
  lemma RunToEdge(p: char -> bool, s: string, x: At)
    requires x.pos <= |s| && forall c: char :: p(c) ==> IsWord(c)
    ensures var e := Stop(p, s, x.pos);
      Try(Seq(AtLeast(1, p), EDGE), s, x) == if x.pos < e && !WordAt(s, e) then Some(x.(pos := e)) else None
  {
    hide *;
    var e := Stop(p, s, x.pos);
    AtLeastStep(1, p, EDGE, s, x);
    AllInOne(p, s, x.pos);
    StopStep(p, s, x.pos);
    if x.pos < e {
      var y := x.(pos := x.pos + 1);
      forall k | y.pos <= k <= e
        ensures Try(EDGE, s, y.(pos := k)) == if k == e && !WordAt(s, e) then Some(x.(pos := e)) else None
      {
        EdgeTry(s, y.(pos := k));
        InWord(s, k - 1);
        if k < e { InWord(s, k); }
        NoEdgeInside(s, k);
      }
      GreedyRun(p, EDGE, s, y);
    }
  }

  lemma InWord(s: string, k: nat)
    ensures k < |s| && IsWord(s[k]) ==> WordAt(s, k)
  {
  }

  /** `0x` and its digits, up to a boundary. */
  function HexOutcome(s: string, i: nat): Option<At> {
    if i + 1 < |s| && s[i] == '0' && IsX(s[i + 1]) then
      var e := Stop(IsHex, s, i + 2);
      if i + 2 < e && !WordAt(s, e) then Found(e) else None
    else None
  }

  lemma HexOutcomeIs(s: string, i: nat, e: nat)
    requires i + 2 <= |s| && e == Stop(IsHex, s, i + 2)
    ensures HexOutcome(s, i)
         == if s[i] == '0' && IsX(s[i + 1]) && i + 2 < e && !WordAt(s, e) then Found(e) else None
  {
    hide Stop, WordAt;
  }

  lemma HexTry(s: string, i: nat)
    ensures Try(Seq(HEX, EDGE), s, At(i, []))
         == HexOutcome(s, i)
  {
    hide *;
    DigitsAreWords();
    HexSteps(s, i);
    if i + 2 <= |s| {
      RunToEdge(IsHex, s, At(i + 2, []));
      FoundIs(Stop(IsHex, s, i + 2));
      HexOutcomeIs(s, i, Stop(IsHex, s, i + 2));
    } else {
      NoHex(s, i);
    }
  }

  lemma NoHex(s: string, i: nat)
    requires i + 2 > |s|
    ensures HexOutcome(s, i) == None
  {
  }

  lemma HexSteps(s: string, i: nat)
    ensures Try(Seq(HEX, EDGE), s, At(i, []))
         == if i + 1 < |s| && s[i] == '0' && IsX(s[i + 1])
            then Try(Seq(AtLeast(1, IsHex), EDGE), s, At(i + 2, [])) else None
  {
    hide Try, AtLeast, EDGE, IsX;
    var digits := AtLeast(1, IsHex);
    SeqAssoc(Class(Is('0')), Seq(Class(IsX), digits), EDGE, s, At(i, []));
    SeqClass(Is('0'), Seq(Seq(Class(IsX), digits), EDGE), s, At(i, []));
    SeqAssoc(Class(IsX), digits, EDGE, s, At(i + 1, []));
    SeqClass(IsX, Seq(digits, EDGE), s, At(i + 1, []));
  }

  /** What follows the digits of a decimal number. */
  function AfterDigits(s: string, w: nat): Option<At>
    requires w <= |s|
  {
    var f := if w < |s| && s[w] == '.' then Stop(IsDigit, s, w + 1) else 0;
    if f > w + 1 && !WordAt(s, f) then Found(f) else if Boundary(s, w) then Found(w) else None
  }

  lemma AfterDigitsTry(s: string, w: nat)
    requires 0 < w <= |s|
    ensures Try(Seq(Maybe(FRACTION), EDGE), s, At(w, [])) == AfterDigits(s, w)
  {
    hide Try, AtLeast, EDGE, Boundary, Run, WordAt;
    var digits := AtLeast(1, IsDigit);
    SeqAlt(FRACTION, Empty, EDGE, s, At(w, []));
    SeqEmpty(EDGE, s, At(w, []));
    EdgeTry(s, At(w, []));
    SeqAssoc(Class(Is('.')), digits, EDGE, s, At(w, []));
    SeqClass(Is('.'), Seq(digits, EDGE), s, At(w, []));
    DigitsAreWords();
    if w + 1 <= |s| { RunToEdge(IsDigit, s, At(w + 1, [])); }
  }

  lemma DecimalTry(s: string, i: nat)
    requires i <= |s|
    ensures var w := Stop(IsDigit, s, i);
      Try(Seq(DECIMAL, EDGE), s, At(i, [])) == if i < w then AfterDigits(s, w) else None
  {
    hide *;
    var rest := Seq(Maybe(FRACTION), EDGE);
    var w := Stop(IsDigit, s, i);
    DecimalIs(s, i);
    AtLeastStep(1, IsDigit, rest, s, At(i, []));
    AllInOne(IsDigit, s, i);
    StopStep(IsDigit, s, i);
    if i < w {
      var y := At(i + 1, []);
      forall k | y.pos <= k < w ensures Try(rest, s, y.(pos := k)).None? {
        AfterDigitsTry(s, k);
        NotAfterDigits(s, k);
      }
      GreedyRun(IsDigit, rest, s, y);
      AfterDigitsTry(s, w);
    }
  }

  lemma DecimalIs(s: string, i: nat)
    ensures Try(Seq(DECIMAL, EDGE), s, At(i, []))
         == Try(Seq(AtLeast(1, IsDigit), Seq(Maybe(FRACTION), EDGE)), s, At(i, []))
  {
    hide Try, AtLeast, EDGE, FRACTION;
    SeqAssoc(AtLeast(1, IsDigit), Maybe(FRACTION), EDGE, s, At(i, []));
  }

  /** Giving digits back does not help. */
  lemma NotAfterDigits(s: string, k: nat)
    requires 0 < k < |s| && IsDigit(s[k - 1]) && IsDigit(s[k])
    ensures AfterDigits(s, k).None?
  {
    hide Run;
    NoEdgeInside(s, k);
  }

  lemma NumberTry(s: string, i: nat)
    requires i < |s|
    ensures Try(NUMBER, s, At(i, [])) == Found(NumberEnd(s, i))
  {
    hide *;
    NumberStart(s, i);
    OrIs(Try(Seq(HEX, EDGE), s, At(i, [])), Try(Seq(DECIMAL, EDGE), s, At(i, [])));
    HexTry(s, i);
    DecimalTry(s, i);
    NumberIs(s, i);
    FoundIs(0);
  }

  lemma NumberStart(s: string, i: nat)
    ensures Try(NUMBER, s, At(i, []))
         == if Boundary(s, i) then Or(Try(Seq(HEX, EDGE), s, At(i, [])), Try(Seq(DECIMAL, EDGE), s, At(i, []))) else None
  {
    SeqEdge(Seq(Alt(HEX, DECIMAL), EDGE), s, At(i, []));
    SeqAlt(HEX, DECIMAL, EDGE, s, At(i, []));
    hide Try, HEX, DECIMAL, EDGE, Boundary;
  }

  /** How many hexadecimal digits follow `0x`. */
  function HexDigits(s: string, i: nat): (n: nat)
    requires i < |s|
  {
    if s[i] == '0' && i + 1 < |s| && (s[i + 1] == 'x' || s[i + 1] == 'X') then Run(IsHex, s[i + 2..]) else 0
  }

  /** How many digits follow a point at `w`. */
  function FractionDigits(s: string, w: nat): (n: nat)
    requires w <= |s|
  {
    if w < |s| && s[w] == '.' then Run(IsDigit, s[w + 1..]) else 0
  }

  lemma HexEnd(s: string, i: nat)
    requires i < |s|
    ensures var hex := HexDigits(s, i);
      HexOutcome(s, i) == if hex > 0 && !WordAt(s, i + 2 + hex) then Found(i + 2 + hex) else None
  {
    hide WordAt, IsHex, Run, Stop;
    if i + 2 <= |s| { StopRun(IsHex, s, i + 2); } else { NoHex(s, i); }
  }

  lemma AfterDigitsIs(s: string, w: nat)
    requires w <= |s|
    ensures var n := FractionDigits(s, w);
      AfterDigits(s, w)
         == if n > 0 && !WordAt(s, w + 1 + n) then Found(w + 1 + n) else if Boundary(s, w) then Found(w) else None
  {
    if w < |s| { StopRun(IsDigit, s, w + 1); }
    hide Run, Stop, IsDigit, WordAt, Boundary;
  }

  lemma DecimalEnd(s: string, i: nat)
    requires i < |s| && IsDigit(s[i])
    ensures var w := Stop(IsDigit, s, i);
      i < w == i + Run(IsDigit, s[i..]) && (Boundary(s, w) <==> !WordAt(s, w))
  {
    hide *;
    StopRun(IsDigit, s, i);
    StopStep(IsDigit, s, i);
    DigitsAreWords();
    InWord(s, Stop(IsDigit, s, i) - 1);
    NoEdgeInside(s, Stop(IsDigit, s, i));
  }

  lemma NumberFront(s: string, i: nat)
    requires i < |s|
    ensures NumberEnd(s, i)
         == if !IsDigit(s[i]) || WordAt(s, i - 1) then 0
            else
              var hex := HexDigits(s, i);
              if hex > 0 && !WordAt(s, i + 2 + hex) then i + 2 + hex
              else
                var whole := i + Run(IsDigit, s[i..]);
                var n := FractionDigits(s, whole);
                if n > 0 && !WordAt(s, whole + 1 + n) then whole + 1 + n
                else if whole > i && !WordAt(s, whole) then whole
                else 0
  {
    hide WordAt, Run;
  }

  lemma NoDigit(s: string, i: nat)
    requires i < |s| && !IsDigit(s[i])
    ensures HexOutcome(s, i).None? && Stop(IsDigit, s, i) == i
  {
    StopStep(IsDigit, s, i);
    hide Stop, Run;
  }

  lemma NumberIs(s: string, i: nat)
    requires i < |s|
    ensures var w := Stop(IsDigit, s, i);
      Found(NumberEnd(s, i))
         == if !Boundary(s, i) then None
            else if HexOutcome(s, i).Some? then HexOutcome(s, i)
            else if i < w then AfterDigits(s, w) else None
  {
    hide *;
    NumberFront(s, i);
    FoundIs(NumberEnd(s, i));
    if IsDigit(s[i]) {
      DigitsAreWords();
      InWord(s, i);
      NoEdgeInside(s, i);
      HexEnd(s, i);
      FoundIs(i + 2 + HexDigits(s, i));
      DecimalEnd(s, i);
      var w := Stop(IsDigit, s, i);
      AfterDigitsIs(s, w);
      FoundIs(w);
      FoundIs(w + 1 + FractionDigits(s, w));
    } else {
      NoDigit(s, i);
    }
  }

  /** The last boundary is one behind the first character, or that one. */
  lemma {:induction false} LastBoundaryStep(s: string, i: nat, e: nat)
    requires i < e <= |s|
    ensures LastBoundary(s, i, e)
         == if LastBoundary(s, i + 1, e) > 0 then LastBoundary(s, i + 1, e) else if Boundary(s, i + 1) then i + 1 else 0
    decreases e
  {
    hide Boundary;
    if !Boundary(s, e) && i + 1 < e { LastBoundaryStep(s, i, e - 1); }
  }

  lemma ManyIs(p: char -> bool, b: Regex, s: string, x: At)
    ensures var more := if x.pos < |s| && p(s[x.pos]) then Try(Seq(Many(p), b), s, x.(pos := x.pos + 1)) else None;
      Try(Seq(Many(p), b), s, x) == Or(more, Try(b, s, x))
  {
    ManyStep(p, false, b, s, x);
    hide Try, Or;
  }

  /** Characters of a name up to the last boundary. */
  lemma {:induction false} NameRest(s: string, i: nat, e: nat)
    requires i < |s| && i + 1 <= e && e == Stop(IsNameChar, s, i + 1)
    ensures Try(Seq(Many(IsNameChar), EDGE), s, At(i + 1, [])) == Found(LastBoundary(s, i, e))
    decreases e - i
  {
    hide *;
    var p := IsNameChar;
    var more := if i + 1 < |s| && p(s[i + 1]) then Try(Seq(Many(p), EDGE), s, At(i + 2, [])) else None;
    ManyIs(p, EDGE, s, At(i + 1, []));
    OrIs(more, Try(EDGE, s, At(i + 1, [])));
    EdgeTry(s, At(i + 1, []));
    StopStep(IsNameChar, s, i + 1);
    LastBoundaryStep(s, i, e);
    FoundIs(LastBoundary(s, i, e));
    FoundIs(LastBoundary(s, i + 1, e));
    if i + 1 < e { NameRest(s, i + 1, e); } else { NoBoundary(s, e); }
  }

  lemma NoBoundary(s: string, e: nat)
    requires e <= |s|
    ensures LastBoundary(s, e, e) == 0
  {
  }

  lemma NameTry(s: string, i: nat)
    requires i < |s|
    ensures Try(NAME, s, At(i, [])) == Found(NameEnd(s, i))
  {
    hide *;
    NameStart(s, i);
    NameRest(s, i, Stop(IsNameChar, s, i + 1));
    StopStep(IsNameChar, s, i);
    NameIs(s, i);
    FoundIs(0);
  }

  lemma NameStart(s: string, i: nat)
    requires i < |s|
    ensures Try(NAME, s, At(i, []))
         == if Boundary(s, i) && StartsName(s[i]) then Try(Seq(Many(IsNameChar), EDGE), s, At(i + 1, [])) else None
    ensures StartsName(s[i]) ==> IsNameChar(s[i])
  {
    SeqEdge(Seq(Class(StartsName), Seq(Many(IsNameChar), EDGE)), s, At(i, []));
    SeqClass(StartsName, Seq(Many(IsNameChar), EDGE), s, At(i, []));
    hide Try, EDGE, Boundary, IsNameChar, Many;
  }

  lemma NameFront(s: string, i: nat, n: nat)
    requires i < |s| && n == Run(IsNameChar, s[i..])
    ensures NameEnd(s, i) == if Boundary(s, i) && StartsName(s[i]) then LastBoundary(s, i, i + n) else 0
  {
    hide Boundary, IsNameChar, IsDigit, Run, LastBoundary;
  }

  lemma NameIs(s: string, i: nat)
    requires i < |s|
    ensures NameEnd(s, i)
         == if Boundary(s, i) && StartsName(s[i]) then LastBoundary(s, i, Stop(IsNameChar, s, i)) else 0
  {
    hide *;
    StopRun(IsNameChar, s, i);
    NameFront(s, i, Run(IsNameChar, s[i..]));
  }

  // --- All alternatives ----------------------------------------------------------------------------

  /** `next` is '/' or whatever follows. */
  lemma MatchIs(s: string, i: nat)
    requires i < |s|
    ensures var c := s[i];
      var twice := i + 1 < |s| && s[i + 1] == c;
      var comment := if i + 1 < |s| && c == '/' && s[i + 1] == '*' then CommentClose(s, i + 2) else 0;
      MatchEnd(s, i)
         == if comment > 0 then comment
            else if twice && (c == '/' || c == '-') then LineEnd(s, i + 2)
            else if c == '#' then LineEnd(s, i + 1)
            else if c == '"' || c == '\'' || c == '`' then QuoteClose(s, c, i + 1)
            else if NumberEnd(s, i) > 0 then NumberEnd(s, i) else NameEnd(s, i)
  {
    hide CommentClose, LineEnd, QuoteClose, NumberEnd, NameEnd;
  }

  lemma WordTry(s: string, i: nat)
    requires i < |s|
    ensures Try(WORD, s, At(i, [])) == Found(if NumberEnd(s, i) > 0 then NumberEnd(s, i) else NameEnd(s, i))
  {
    hide *;
    WordIs(s, i);
    OrIs(Try(NUMBER, s, At(i, [])), Try(NAME, s, At(i, [])));
    NumberTry(s, i);
    NameTry(s, i);
    FoundIs(NumberEnd(s, i));
    FoundIs(NameEnd(s, i));
  }

  lemma WordIs(s: string, i: nat)
    ensures Try(WORD, s, At(i, [])) == Or(Try(NUMBER, s, At(i, [])), Try(NAME, s, At(i, [])))
  {
    AltTry(NUMBER, NAME, s, At(i, []));
    hide Try, NUMBER, NAME;
  }

  /** A character that no word begins with. */
  lemma NoWord(s: string, i: nat)
    requires i < |s| && !IsNameChar(s[i])
    ensures NumberEnd(s, i) == 0 && NameEnd(s, i) == 0
  {
    DigitsAreWords();
    hide IsDigit, IsNameChar, WordAt, Boundary, Run, LastBoundary;
  }

  predicate IsSign(c: char) { c == '/' || c == '-' || c == '#' || c == '"' || c == '\'' || c == '`' }

  lemma SignsAreNoNames(c: char)
    requires IsSign(c)
    ensures !IsNameChar(c)
  {
  }

  lemma StringTry(s: string, i: nat)
    requires i < |s|
    ensures var c := s[i];
      Try(STRING, s, At(i, []))
         == if c == '"' || c == '\'' || c == '`' then Found(QuoteClose(s, c, i + 1)) else Try(WORD, s, At(i, []))
  {
    hide *;
    StringIs(s, i);
    QuotedTry('"', s, i);
    QuotedTry('\'', s, i);
    QuotedTry('`', s, i);
    WordTry(s, i);
    FoundIs(0);
    SignIs(s[i]);
    if s[i] == '"' || s[i] == '\'' || s[i] == '`' {
      SignsAreNoNames(s[i]);
      NoWord(s, i);
      FoundIs(QuoteClose(s, s[i], i + 1));
    }
  }

  lemma SignIs(c: char)
    ensures IsSign(c) <==> c == '/' || c == '-' || c == '#' || c == '"' || c == '\'' || c == '`'
  {
  }

  lemma StringIs(s: string, i: nat)
    ensures var x := At(i, []);
      Try(STRING, s, x)
         == if Try(Quoted('"'), s, x).Some? then Try(Quoted('"'), s, x)
            else if Try(Quoted('\''), s, x).Some? then Try(Quoted('\''), s, x)
            else if Try(Quoted('`'), s, x).Some? then Try(Quoted('`'), s, x) else Try(WORD, s, x)
  {
    var x := At(i, []);
    AltTry(Quoted('"'), Alt(Quoted('\''), Alt(Quoted('`'), WORD)), s, x);
    AltTry(Quoted('\''), Alt(Quoted('`'), WORD), s, x);
    AltTry(Quoted('`'), WORD, s, x);
    hide Try, Quoted, WORD;
  }

  lemma TokenIs(s: string, i: nat)
    ensures var x := At(i, []);
      Try(TOKEN, s, x)
         == if Try(COMMENT, s, x).Some? then Try(COMMENT, s, x)
            else if Try(LineOf('/'), s, x).Some? then Try(LineOf('/'), s, x)
            else if Try(HASH_LINE, s, x).Some? then Try(HASH_LINE, s, x)
            else if Try(LineOf('-'), s, x).Some? then Try(LineOf('-'), s, x) else Try(STRING, s, x)
  {
    var x := At(i, []);
    AltTry(COMMENT, Alt(LineOf('/'), Alt(HASH_LINE, Alt(LineOf('-'), STRING))), s, x);
    AltTry(LineOf('/'), Alt(HASH_LINE, Alt(LineOf('-'), STRING)), s, x);
    AltTry(HASH_LINE, Alt(LineOf('-'), STRING), s, x);
    AltTry(LineOf('-'), STRING, s, x);
    hide Try, COMMENT, LineOf, HASH_LINE, STRING;
  }

  lemma LinesHaveEnds(s: string, i: nat)
    ensures i <= |s| ==> i <= LineEnd(s, i)
  {
    hide LineEnd;
  }

  /** At every position the tokenizer takes what the source's expression matches there, backtracking included. */
  lemma TokenMatches(s: string, i: nat)
    requires i < |s|
    ensures Try(TOKEN, s, At(i, [])) == Found(MatchEnd(s, i))
  {
    hide *;
    TokenIs(s, i);
    MatchIs(s, i);
    CommentTry(s, i);
    LineOfTry('/', s, i);
    HashTry(s, i);
    LineOfTry('-', s, i);
    StringTry(s, i);
    WordTry(s, i);
    FoundIs(CommentClose(s, i + 2));
    if i + 2 <= |s| { LinesHaveEnds(s, i + 2); FoundIs(LineEnd(s, i + 2)); }
    LinesHaveEnds(s, i + 1);
    FoundIs(LineEnd(s, i + 1));
    SignIs(s[i]);
    if IsSign(s[i]) {
      SignsAreNoNames(s[i]);
      NoWord(s, i);
    }
  }

  // --- `matchAll` ----------------------------------------------------------------------------------

  /** All matches from `i` on, each search going on behind the last one. */
  function MatchAll(r: Regex, s: string, i: nat): seq<Match>
    requires i <= |s|
    decreases |s| - i
  {
    if i == |s| then []
    else
      match Try(r, s, At(i, []))
      case Some(m) => if i < m.pos <= |s| then [Match(i, m.pos)] + MatchAll(r, s, m.pos) else []
      case None => MatchAll(r, s, i + 1)
  }

  /** The spans that are highlighted are what `matchAll` finds with the source's expression. */
  lemma {:induction false} SpansAreMatches(s: string, i: nat)
    requires i <= |s|
    ensures Spans(s, i) == MatchAll(TOKEN, s, i)
    decreases |s| - i
  {
    hide Try, TOKEN, MatchEnd;
    if i < |s| {
      var e := MatchEnd(s, i);
      TokenMatches(s, i);
      FoundIs(e);
      if e > 0 { SpansAreMatches(s, e); } else { SpansAreMatches(s, i + 1); }
    }
  }

  // --- What each token is --------------------------------------------------------------------------

  const JAVASCRIPT_WORDS: set<string> :=
    {"as", "do", "if", "in", "of", "for", "let", "new", "try", "var", "case", "else", "from", "this", "void",
     "with", "async", "await", "break", "catch", "class", "const", "super", "throw", "while", "yield", "delete",
     "export", "import", "return", "static", "switch", "typeof", "default", "extends", "finally", "continue",
     "debugger", "function", "instanceof"}

  const TYPESCRIPT_WORDS: set<string> :=
    {"as", "do", "if", "in", "for", "case", "else", "from", "async", "await", "break", "catch", "class", "const",
     "delete", "export", "import", "default", "extends", "finally", "continue", "debugger", "function", "interface",
     "implements", "instanceof"}
    + {"of", "let", "new", "try", "var", "this", "type", "void", "with", "keyof", "never", "super", "throw",
       "while", "yield", "public", "return", "static", "string", "switch", "typeof", "private", "unknown",
       "readonly", "namespace"}

  const PYTHON_WORDS: set<string> :=
    {"as", "if", "in", "is", "or", "and", "def", "del", "for", "not", "try", "None", "True", "case", "elif", "else",
     "from", "pass", "with", "False", "async", "await", "break", "class", "match", "raise", "while", "yield",
     "assert", "except", "global", "import", "lambda", "return", "finally", "continue", "nonlocal"}

  const RUST_WORDS: set<string> :=
    {"as", "fn", "if", "in", "dyn", "for", "let", "mod", "mut", "pub", "ref", "use", "Self", "else", "enum", "impl",
     "loop", "move", "self", "true", "type", "async", "await", "break", "const", "crate", "false", "match", "super",
     "trait", "where", "while", "extern", "return", "static", "struct", "unsafe", "continue"}

  const JSON_WORDS: set<string> :=
    {"null", "true", "false"}

  const SHELL_WORDS: set<string> :=
    {"do", "fi", "if", "in", "for", "case", "done", "elif", "else", "esac", "then", "until", "while", "select",
     "function"}

  /** The words that each language emphasises; none for a language that is only tokenized. */
  function WordsOf(language: string): set<string> {
    if language == "javascript" then JAVASCRIPT_WORDS
    else if language == "typescript" then TYPESCRIPT_WORDS
    else if language == "python" then PYTHON_WORDS
    else if language == "rust" then RUST_WORDS
    else if language == "json" then JSON_WORDS
    else if language == "bash" || language == "shell" then SHELL_WORDS
    else {}
  }

  /** The languages whose code is tokenized at all. */
  predicate Tokenized(language: string) {
    || language == "javascript" || language == "typescript" || language == "python" || language == "rust"
    || language == "json" || language == "bash" || language == "shell" || language == "css" || language == "html"
    || language == "xml" || language == "yaml" || language == "markdown" || language == "md"
  }

  lemma JavascriptWords(w: string)
    ensures w in JAVASCRIPT_WORDS <==> w in JAVASCRIPT
  {
  }

  lemma TypescriptWords(w: string)
    ensures w in TYPESCRIPT_WORDS <==> w in TYPESCRIPT
  {
  }

  lemma PythonWords(w: string)
    ensures w in PYTHON_WORDS <==> w in PYTHON
  {
  }

  lemma RustWords(w: string)
    ensures w in RUST_WORDS <==> w in RUST
  {
  }

  lemma JsonWords(w: string)
    ensures w in JSON_WORDS <==> w in JSON
  {
  }

  lemma ShellWords(w: string)
    ensures w in SHELL_WORDS <==> w in SHELL
  {
  }

  lemma WordsAre(language: string, w: string)
    ensures w in WordsOf(language) <==> HasKeywords(language) && w in Keywords(language)
  {
    JavascriptWords(w);
    TypescriptWords(w);
    PythonWords(w);
    RustWords(w);
    JsonWords(w);
    ShellWords(w);
    hide JAVASCRIPT_WORDS, TYPESCRIPT_WORDS, PYTHON_WORDS, RUST_WORDS, JSON_WORDS, SHELL_WORDS;
    hide JAVASCRIPT, TYPESCRIPT, PYTHON, RUST, JSON, SHELL;
  }

  lemma TokenizedIs(language: string)
    ensures Tokenized(language) <==> IsHighlighted(language)
  {
  }

  predicate MatchesAt(r: Regex, s: string, i: nat) { Try(r, s, At(i, [])).Some? }

  /** What the alternative that matches at `i` makes of the token: the four forms of comments, the three kinds of
      quotes, a number, and a name if it is one of the words. */
  function KindAt(s: string, i: nat, words: set<string>): Option<string>
    requires i < |s|
  {
    if MatchesAt(COMMENT, s, i) || MatchesAt(LineOf('/'), s, i) || MatchesAt(HASH_LINE, s, i) || MatchesAt(LineOf('-'), s, i)
    then Some("comment")
    else if MatchesAt(Quoted('"'), s, i) || MatchesAt(Quoted('\''), s, i) || MatchesAt(Quoted('`'), s, i) then Some("string")
    else if MatchesAt(NUMBER, s, i) then Some("number")
    else if MatchesAt(NAME, s, i) && i <= MatchEnd(s, i) && s[i..MatchEnd(s, i)] in words then Some("keyword")
    else None
  }

  /** `kind ? <span ...>text</span> : text` */
  function Tagged(text: string, kind: Option<string>): string {
    match kind
    case Some(k) => "<span class=\"code-token-" + k + "\">" + EscapeHtml(text) + "</span>"
    case None => EscapeHtml(text)
  }

  /** The loop over `code.matchAll(pattern)`, from `i` on; `last` is the source's `lastIndex`. */
  function TaggedMatches(s: string, i: nat, last: nat, words: set<string>): string
    requires last <= i <= |s|
    decreases |s| - i
  {
    if i == |s| then EscapeHtml(s[last..])
    else
      match Try(TOKEN, s, At(i, []))
      case Some(m) =>
        if i < m.pos <= |s| then
          EscapeHtml(s[last..i]) + Tagged(s[i..m.pos], KindAt(s, i, words)) + TaggedMatches(s, m.pos, m.pos, words)
        else ""
      case None => TaggedMatches(s, i + 1, last, words)
  }

  predicate StartsTwo(token: string, c: char, d: char) { |token| >= 2 && token[0] == c && token[1] == d }

  lemma PrefixTwo(token: string, t: string)
    requires |t| == 2
    ensures t <= token <==> StartsTwo(token, t[0], t[1])
  {
  }

  lemma PrefixOne(token: string, t: string)
    requires |t| == 1
    ensures t <= token <==> token != "" && token[0] == t[0]
  {
  }

  /** The class of a token, by its first characters. */
  lemma ClassIs(token: string, language: string)
    requires token != ""
    ensures TokenClass(token, language)
         == if StartsTwo(token, '/', '/') || token[0] == '#' || StartsTwo(token, '-', '-') || StartsTwo(token, '/', '*')
            then Some("comment")
            else if token[0] == '"' || token[0] == '\'' || token[0] == '`' then Some("string")
            else if IsDigit(token[0]) then Some("number")
            else if token in WordsOf(language) then Some("keyword")
            else None
  {
    PrefixTwo(token, "//");
    PrefixTwo(token, "--");
    PrefixTwo(token, "/*");
    PrefixOne(token, "#");
    PrefixOne(token, "\"");
    PrefixOne(token, "'");
    PrefixOne(token, "`");
    WordsAre(language, token);
    hide HasKeywords, Keywords, WordsOf, StartsTwo;
  }

  lemma FirstChars(s: string, i: nat, e: nat, c: char, d: char)
    requires i < e <= |s|
    ensures s[i..e][0] == s[i] && (StartsTwo(s[i..e], c, d) <==> i + 1 < e && s[i] == c && s[i + 1] == d)
  {
  }

  lemma NumbersBeginWithDigits(s: string, i: nat)
    requires i < |s|
    ensures NumberEnd(s, i) > 0 ==> IsDigit(s[i])
    ensures NameEnd(s, i) > 0 ==> !IsDigit(s[i]) && IsNameChar(s[i])
  {
    hide Run, LastBoundary;
  }

  /** Comments reach beyond their first two characters. */
  lemma CommentsAreLong(s: string, i: nat)
    ensures CommentClose(s, i + 2) > 0 ==> CommentClose(s, i + 2) > i + 3
    ensures i + 2 <= |s| ==> LineEnd(s, i + 2) >= i + 2
  {
    hide CommentClose, LineEnd;
  }

  lemma FoundAt(s: string, i: nat)
    requires i < |s|
    ensures MatchesAt(COMMENT, s, i) <==> i + 1 < |s| && s[i] == '/' && s[i + 1] == '*' && CommentClose(s, i + 2) > 0
    ensures MatchesAt(LineOf('/'), s, i) <==> i + 1 < |s| && s[i] == '/' && s[i + 1] == '/'
    ensures MatchesAt(LineOf('-'), s, i) <==> i + 1 < |s| && s[i] == '-' && s[i + 1] == '-'
    ensures MatchesAt(HASH_LINE, s, i) <==> s[i] == '#'
    ensures MatchesAt(NUMBER, s, i) <==> NumberEnd(s, i) > 0
    ensures MatchesAt(NAME, s, i) <==> NameEnd(s, i) > 0
  {
    CommentTry(s, i);
    LineOfTry('/', s, i);
    LineOfTry('-', s, i);
    HashTry(s, i);
    NumberTry(s, i);
    NameTry(s, i);
    FoundIs(CommentClose(s, i + 2));
    FoundIs(NumberEnd(s, i));
    FoundIs(NameEnd(s, i));
    LinesHaveEnds(s, i + 1);
    FoundIs(LineEnd(s, i + 1));
    if i + 2 <= |s| { LinesHaveEnds(s, i + 2); FoundIs(LineEnd(s, i + 2)); }
    hide Try, Found, CommentClose, LineEnd, NumberEnd, NameEnd, COMMENT, LineOf, HASH_LINE, NUMBER, NAME;
  }

  lemma QuoteFoundAt(s: string, i: nat, quote: char)
    requires i < |s| && quote != '\\'
    ensures MatchesAt(Quoted(quote), s, i) <==> s[i] == quote && QuoteClose(s, quote, i + 1) > 0
  {
    QuotedTry(quote, s, i);
    FoundIs(QuoteClose(s, quote, i + 1));
    hide Try, Found, QuoteClose, Quoted;
  }

  /** The class of a token is that of the alternative that matched it. */
  lemma ClassIsKind(s: string, i: nat, language: string)
    requires i < |s| && MatchEnd(s, i) > 0
    ensures TokenClass(s[i..MatchEnd(s, i)], language) == KindAt(s, i, WordsOf(language))
  {
    var e := MatchEnd(s, i);
    MatchIs(s, i);
    FoundAt(s, i);
    QuoteFoundAt(s, i, '"');
    QuoteFoundAt(s, i, '\'');
    QuoteFoundAt(s, i, '`');
    CommentsAreLong(s, i);
    NumbersBeginWithDigits(s, i);
    DigitsAreWords();
    SignIs(s[i]);
    if IsSign(s[i]) {
      SignsAreNoNames(s[i]);
      NoWord(s, i);
    }
    FirstChars(s, i, e, '/', '/');
    FirstChars(s, i, e, '-', '-');
    FirstChars(s, i, e, '/', '*');
    ClassIs(s[i..e], language);
    hide TokenClass, MatchEnd, MatchesAt, CommentClose, LineEnd, QuoteClose, NumberEnd, NameEnd, WordsOf, StartsTwo, IsSign,
         COMMENT, LineOf, HASH_LINE, Quoted, NUMBER, NAME, IsDigit, IsWord, IsNameChar;
  }

  lemma TaggedIs(token: string, language: string)
    ensures RenderToken(token, Classifier(language)) == Tagged(token, TokenClass(token, language))
  {
    hide TokenClass, EscapeHtml;
  }

  lemma {:induction false} SpansAreTagged(s: string, i: nat, last: nat, language: string)
    requires last <= i <= |s| && ValidSpans(Spans(s, i), last, |s|)
    ensures RenderSpans(s, Spans(s, i), last, Classifier(language)) == TaggedMatches(s, i, last, WordsOf(language))
    decreases |s| - i
  {
    hide Try, TOKEN, MatchEnd, RenderToken, Tagged, KindAt, EscapeHtml, WordsOf;
    if i < |s| {
      var e := MatchEnd(s, i);
      TokenMatches(s, i);
      FoundIs(e);
      if e > 0 {
        SpansValid(s, e, e);
        assert Spans(s, i)[1..] == Spans(s, e);
        SpansAreTagged(s, e, e, language);
        TaggedIs(s[i..e], language);
        ClassIsKind(s, i, language);
      } else {
        SpansAreTagged(s, i + 1, last, language);
      }
    }
  }

  /** The highlighted code is what the source's loop makes of the matches of its expression: gaps escaped, each token
      escaped and in a span that names the alternative that matched it, words of the language being keywords; code in
      any other language is only escaped. */
  lemma HighlightIsTagged(code: string, language: string)
    ensures var name := NormalizeLanguage(language);
      HighlightCode(code, language) == if Tokenized(name) then TaggedMatches(code, 0, 0, WordsOf(name)) else EscapeHtml(code)
  {
    hide NormalizeLanguage, Tokenized, IsHighlighted, TaggedMatches, WordsOf, EscapeHtml, RenderSpans;
    var name := NormalizeLanguage(language);
    TokenizedIs(name);
    if Tokenized(name) {
      SpansValid(code, 0, 0);
      SpansAreTagged(code, 0, 0, name);
    }
  }

  /** Code that is one token from end to end. */
  lemma OneTokenShows(code: string, language: string)
    requires Tokenized(NormalizeLanguage(language)) && code != "" && MatchEnd(code, 0) == |code|
    ensures HighlightCode(code, language) == Tagged(code, KindAt(code, 0, WordsOf(NormalizeLanguage(language))))
  {
    hide Try, TOKEN, MatchEnd, NormalizeLanguage, Tokenized, Tagged, KindAt, EscapeHtml, WordsOf, HighlightCode;
    var words := WordsOf(NormalizeLanguage(language));
    HighlightIsTagged(code, language);
    TokenMatches(code, 0);
    FoundIs(|code|);
    NothingEscaped();
    TaggedEnd(code, words);
    assert code[0..0] == "" && code[0..|code|] == code;
  }

  lemma NothingEscaped()
    ensures EscapeHtml("") == ""
  {
  }

  lemma TaggedEnd(code: string, words: set<string>)
    ensures TaggedMatches(code, |code|, |code|, words) == EscapeHtml("")
  {
    hide EscapeHtml;
    assert code[|code|..] == "";
  }

  lemma NoNewlineToEnd(s: string, i: nat)
    requires i <= |s| && '\n' !in s[i..]
    ensures LineEnd(s, i) == |s|
  {
    var rest := s[i..];
    forall k | 0 <= k < |rest| ensures rest[k] != '\n' { assert rest[k] in rest; }
  }

  /** A line that begins with one of the three line comments is a comment from end to end. */
  lemma LineCommentShows(start: string, t: string, language: string)
    requires start == "//" || start == "--" || start == "#"
    requires '\n' !in t && Tokenized(NormalizeLanguage(language))
    ensures HighlightCode(start + t, language)
         == "<span class=\"code-token-comment\">" + EscapeHtml(start + t) + "</span>"
  {
    hide NormalizeLanguage, Tokenized, EscapeHtml, HighlightCode, WordsOf, MatchEnd, LineEnd, QuoteClose, NumberEnd, NameEnd,
         CommentClose, COMMENT, LineOf, HASH_LINE, Quoted, NUMBER, NAME, Try, MatchesAt;
    var code := start + t;
    assert code[|start|..] == t;
    NoNewlineToEnd(code, |start|);
    MatchIs(code, 0);
    FoundAt(code, 0);
    OneTokenShows(code, language);
  }

  /** A word by itself is a keyword exactly if it is one of the language's words. */
  lemma WordShows(w: string, language: string)
    requires w != "" && (forall i | 0 <= i < |w| :: 'a' <= w[i] <= 'z') && Tokenized(NormalizeLanguage(language))
    ensures HighlightCode(w, language)
         == if w in WordsOf(NormalizeLanguage(language)) then "<span class=\"code-token-keyword\">" + EscapeHtml(w) + "</span>"
            else EscapeHtml(w)
  {
    hide NormalizeLanguage, Tokenized, EscapeHtml, HighlightCode, WordsOf, MatchEnd, Try, MatchesAt, COMMENT, LineOf,
         HASH_LINE, Quoted, NUMBER, NAME;
    LettersAreName(w);
    FoundAt(w, 0);
    QuoteFoundAt(w, 0, '"');
    QuoteFoundAt(w, 0, '\'');
    QuoteFoundAt(w, 0, '`');
    OneTokenShows(w, language);
    assert w[0..|w|] == w;
  }

  lemma LettersAreName(w: string)
    requires w != "" && (forall i | 0 <= i < |w| :: 'a' <= w[i] <= 'z')
    ensures MatchEnd(w, 0) == NameEnd(w, 0) == |w| && NumberEnd(w, 0) == 0 && !IsSign(w[0])
  {
    StopIs(IsNameChar, w, 0, |w|);
    NameIs(w, 0);
    MatchIs(w, 0);
    hide NameEnd, MatchEnd, CommentClose, LineEnd, QuoteClose, Stop;
    assert Boundary(w, 0) && Boundary(w, |w|);
  }
}
