/** Strings as the browser code sees them: white space, lines, joining and splitting. */
module Text {
  datatype Option<+T> = None | Some(value: T)

  /** The characters of the regular-expression class `\s`, which are also the ones `trim` removes. */
  predicate IsSpace(c: char) {
    || '\t' <= c <= '\r' || c == ' ' || c == '\U{00A0}' || c == '\U{1680}'
    || '\U{2000}' <= c <= '\U{200A}' || c == '\U{2028}' || c == '\U{2029}'
    || c == '\U{202F}' || c == '\U{205F}' || c == '\U{3000}' || c == '\U{FEFF}'
  }

  /** The characters that `.` does not match. */
  predicate IsLineTerminator(c: char) {
    c == '\n' || c == '\r' || c == '\U{2028}' || c == '\U{2029}'
  }

  predicate IsDigit(c: char) { '0' <= c <= '9' }

  function LowerAscii(c: char): char {
    if 'A' <= c <= 'Z' then c - 'A' + 'a' else c
  }

  predicate AllSpace(s: string) { forall i | 0 <= i < |s| :: IsSpace(s[i]) }

  /** Whether `.*` matches all of `s`. */
  predicate Dots(s: string) { forall i | 0 <= i < |s| :: !IsLineTerminator(s[i]) }

  /** How many characters at the front of `s` satisfy `p`. */
  function Run(p: char -> bool, s: string): (n: nat)
    ensures n <= |s|
    ensures forall i | 0 <= i < n :: p(s[i])
    ensures n < |s| ==> !p(s[n])
  {
    if s == [] || !p(s[0]) then 0 else 1 + Run(p, s[1..])
  }

  /** How many characters at the front of `s` are `c`. */
  function RunOf(c: char, s: string): (n: nat)
    ensures n <= |s|
    ensures forall i | 0 <= i < n :: s[i] == c
    ensures n < |s| ==> s[n] != c
  {
    if s == [] || s[0] != c then 0 else 1 + RunOf(c, s[1..])
  }

  function TrimStart(s: string): (t: string)
    ensures t == s[Run(IsSpace, s)..]
  {
    s[Run(IsSpace, s)..]
  }

  function TrimEnd(s: string): string {
    if s == [] || !IsSpace(s[|s| - 1]) then s else TrimEnd(s[..|s| - 1])
  }

  function Trim(s: string): string { TrimEnd(TrimStart(s)) }

  lemma {:induction false} TrimEndCuts(s: string) returns (b: nat)
    ensures b <= |s| && TrimEnd(s) == s[..b] && (forall i | b <= i < |s| :: IsSpace(s[i]))
    ensures b > 0 ==> !IsSpace(s[b - 1])
  {
    hide IsSpace;
    b := |s|;
    if s != "" && IsSpace(s[|s| - 1]) {
      var t := s[..|s| - 1];
      b := TrimEndCuts(t);
      assert t[..b] == s[..b];
      forall i | b <= i < |s| ensures IsSpace(s[i]) { if i < |t| { assert s[i] == t[i]; } }
    } else {
      assert s[..|s|] == s;
    }
  }

  /** Trimming cuts off the white space at both ends and nothing else. */
  lemma TrimCuts(s: string) returns (a: nat, b: nat)
    ensures a <= b <= |s| && Trim(s) == s[a..b]
    ensures (forall i | 0 <= i < a :: IsSpace(s[i])) && (forall i | b <= i < |s| :: IsSpace(s[i]))
    ensures a < b ==> !IsSpace(s[a]) && !IsSpace(s[b - 1])
  {
    hide IsSpace;
    a := Run(IsSpace, s);
    var t := s[a..];
    var c := TrimEndCuts(t);
    b := a + c;
    assert t[..c] == s[a..b];
    forall i | b <= i < |s| ensures IsSpace(s[i]) { assert s[i] == t[i - a]; }
  }

  predicate Contains(s: string, part: string) {
    part <= s || (s != [] && Contains(s[1..], part))
  }

  function Join(parts: seq<string>, separator: string): string {
    if parts == [] then ""
    else if |parts| == 1 then parts[0]
    else parts[0] + separator + Join(parts[1..], separator)
  }

  /** `value.replace(/\r\n?/g, "\n")`. */
  function NormalizeNewlines(s: string): string {
    if s == [] then ""
    else if s[0] == '\r' then
      "\n" + NormalizeNewlines(if |s| > 1 && s[1] == '\n' then s[2..] else s[1..])
    else [s[0]] + NormalizeNewlines(s[1..])
  }

  /** Putting a character in front of a text that has been split. */
  function Prepend(c: char, lines: seq<string>): seq<string>
    requires lines != []
  {
    if c == '\n' then [""] + lines else [[c] + lines[0]] + lines[1..]
  }

  /** `value.split("\n")`. */
  function Split(s: string): (lines: seq<string>)
    ensures |lines| > 0
    ensures forall i | 0 <= i < |lines| :: '\n' !in lines[i]
  {
    if s == [] then [""]
    else Prepend(s[0], Split(s[1..]))
  }

  function Lines(s: string): (lines: seq<string>)
    ensures |lines| > 0
  {
    Split(NormalizeNewlines(s))
  }

  lemma JoinMore(first: string, more: seq<string>, separator: string)
    requires more != []
    ensures Join([first] + more, separator) == first + separator + Join(more, separator)
  {
    assert ([first] + more)[1..] == more;
  }

  lemma JoinLonger(c: char, first: string, more: seq<string>, separator: string)
    requires more != []
    ensures Join([[c] + first] + more, separator) == [c] + Join([first] + more, separator)
  {
    hide Join;
    JoinMore([c] + first, more, separator);
    JoinMore(first, more, separator);
  }

  lemma JoinPrepend(c: char, lines: seq<string>)
    requires lines != []
    ensures Join(Prepend(c, lines), "\n") == [c] + Join(lines, "\n")
  {
    hide Join;
    if c == '\n' {
      JoinMore("", lines, "\n");
    } else if |lines| == 1 {
      JoinOne(lines[0]);
      JoinOne([c] + lines[0]);
      assert lines == [lines[0]] && Prepend(c, lines) == [[c] + lines[0]];
    } else {
      JoinLonger(c, lines[0], lines[1..], "\n");
      assert lines == [lines[0]] + lines[1..];
    }
  }

  lemma {:induction false} JoinSplit(s: string)
    ensures Join(Split(s), "\n") == s
  {
    hide Join, Prepend;
    if s != [] {
      JoinSplit(s[1..]);
      JoinPrepend(s[0], Split(s[1..]));
    } else {
      JoinOne("");
    }
  }

  lemma JoinOne(line: string)
    ensures Join([line], "\n") == line
  {
  }

  lemma PrependConcat(c: char, front: seq<string>, back: seq<string>)
    requires front != []
    ensures Prepend(c, front + back) == Prepend(c, front) + back
  {
  }

  lemma {:induction false} SplitAtNewline(a: string, b: string)
    ensures Split(a + "\n" + b) == Split(a) + Split(b)
  {
    if a == [] {
      var s := a + "\n" + b;
      assert s[0] == '\n' && s[1..] == b;
    } else {
      SplitAtNewline(a[1..], b);
      PrependConcat(a[0], Split(a[1..]), Split(b));
      var s := a + "\n" + b;
      assert s[0] == a[0] && s[1..] == a[1..] + "\n" + b;
    }
  }

  lemma {:induction false} SplitOneLine(a: string)
    requires '\n' !in a
    ensures Split(a) == [a]
  {
    if a != [] {
      SplitOneLine(a[1..]);
      assert [a[0]] + a[1..] == a;
    }
  }

  predicate EndsWithReturn(s: string) { s != [] && s[|s| - 1] == '\r' }

  /** How many characters make the first one of the normalised text. */
  function Taken(s: string): (k: nat)
    requires s != []
    ensures 1 <= k <= |s|
  {
    if s[0] == '\r' && |s| > 1 && s[1] == '\n' then 2 else 1
  }

  lemma NormalizeStep(s: string)
    requires s != []
    ensures NormalizeNewlines(s) == [if s[0] == '\r' then '\n' else s[0]] + NormalizeNewlines(s[Taken(s)..])
  {
  }

  lemma TakenInFront(a: string, b: string)
    requires a != [] && a != ['\r']
    ensures Taken(a + "\n" + b) == Taken(a)
    ensures (a + "\n" + b)[Taken(a)..] == a[Taken(a)..] + "\n" + b
    ensures EndsWithReturn(a[Taken(a)..]) == EndsWithReturn(a)
  {
    var s := a + "\n" + b;
    assert s[0] == a[0];
    if |a| > 1 { assert s[1] == a[1]; }
  }

  /** A newline after `a` stays a line break, unless it completes a `\r\n` that `a` began. */
  lemma {:induction false} NormalizeAtNewline(a: string, b: string)
    ensures NormalizeNewlines(a + "\n" + b)
         == if EndsWithReturn(a) then NormalizeNewlines(a) + NormalizeNewlines(b)
            else NormalizeNewlines(a) + "\n" + NormalizeNewlines(b)
    decreases |a|
  {
    NothingNormalizes();
    hide NormalizeNewlines;
    var s := a + "\n" + b;
    NormalizeStep(s);
    if a == [] {
      assert s[1..] == b;
    } else {
      NormalizeStep(a);
      if a == ['\r'] {
        assert s[2..] == b && a[1..] == [];
      } else {
        TakenInFront(a, b);
        hide Taken, EndsWithReturn;
        assert s[0] == a[0];
        NormalizeAtNewline(a[Taken(a)..], b);
        Associate([if a[0] == '\r' then '\n' else a[0]], NormalizeNewlines(a[Taken(a)..]), NormalizeNewlines(b));
      }
    }
  }

  lemma NothingNormalizes()
    ensures NormalizeNewlines([]) == []
  {
  }

  lemma Associate(a: string, b: string, c: string)
    ensures a + (b + c) == (a + b) + c
    ensures a + (b + "\n" + c) == (a + b) + "\n" + c
  {
  }

  lemma {:induction false} NormalizeEndsWithNewline(s: string)
    requires EndsWithReturn(s)
    ensures var t := NormalizeNewlines(s); t != [] && t[|t| - 1] == '\n'
    decreases |s|
  {
    if |s| > 1 {
      var k := if s[0] == '\r' && s[1] == '\n' then 2 else 1;
      if k < |s| { NormalizeEndsWithNewline(s[k..]); }
    }
  }

  /** The lines of two texts with a line break between them. */
  lemma LinesAtNewline(a: string, b: string)
    ensures EndsWithReturn(a) ==> |Lines(a)| > 1 && Lines(a)[|Lines(a)| - 1] == ""
    ensures Lines(a + "\n" + b)
         == if EndsWithReturn(a) then Lines(a)[..|Lines(a)| - 1] + Lines(b) else Lines(a) + Lines(b)
  {
    NormalizeAtNewline(a, b);
    if EndsWithReturn(a) {
      NormalizeEndsWithNewline(a);
      var t := NormalizeNewlines(a);
      var u := t[..|t| - 1];
      assert t == u + "\n" + "";
      SplitAtNewline(u, "");
      assert Lines(a) == Split(u) + [""];
      assert t + NormalizeNewlines(b) == u + "\n" + NormalizeNewlines(b);
      SplitAtNewline(u, NormalizeNewlines(b));
      assert Lines(a)[..|Lines(a)| - 1] == Split(u);
    } else {
      SplitAtNewline(NormalizeNewlines(a), NormalizeNewlines(b));
    }
  }

  lemma {:induction false} NormalizeIdentity(s: string)
    requires '\r' !in s
    ensures NormalizeNewlines(s) == s
  {
    if s != [] { NormalizeIdentity(s[1..]); }
  }

  predicate SingleLine(s: string) { '\n' !in s && '\r' !in s }

  lemma OneLineLines(line: string)
    requires SingleLine(line)
    ensures Lines(line) == [line]
  {
    NormalizeIdentity(line);
    SplitOneLine(line);
  }

  lemma {:induction false} JoinLength(parts: seq<string>, more: seq<string>)
    requires more != [] && (parts != [] || more[0] != "")
    ensures |Join(parts + more, "\n")| > |Join(parts, "\n")|
  {
    if parts == [] {
      assert parts + more == more;
    } else if |parts| == 1 {
      assert (parts + more)[1..] == more;
    } else {
      assert (parts + more)[1..] == parts[1..] + more;
      JoinLength(parts[1..], more);
    }
  }
}
