/** HTML escaping (`escapeHtml`, `escapeAttribute`) and its inverse. */
module Escaping {

  /** `value.replace(/c/g, entity)`. */
  function Replace(s: string, c: char, entity: string): string {
    if s == [] then ""
    else (if s[0] == c then entity else [s[0]]) + Replace(s[1..], c, entity)
  }

  /** Five whole-string replacements, one after the other. */
  function EscapeHtml(s: string): string {
    Replace(Replace(Replace(Replace(Replace(s,
      '&', "&amp;"), '<', "&lt;"), '>', "&gt;"), '"', "&quot;"), '\'', "&#39;")
  }

  function EscapeAttribute(s: string): string {
    Replace(EscapeHtml(s), '`', "&#96;")
  }

  /** What one character becomes. */
  function Entity(c: char): string {
    match c
    case '&' => "&amp;"
    case '<' => "&lt;"
    case '>' => "&gt;"
    case '"' => "&quot;"
    case '\'' => "&#39;"
    case _ => [c]
  }

  /** The reference: every character is looked up once. */
  function EscapeEach(s: string): string {
    if s == [] then "" else Entity(s[0]) + EscapeEach(s[1..])
  }

  lemma {:induction false} ReplaceConcat(a: string, b: string, c: char, entity: string)
    ensures Replace(a + b, c, entity) == Replace(a, c, entity) + Replace(b, c, entity)
  {
    if a == [] {
      assert a + b == b;
    } else {
      assert (a + b)[1..] == a[1..] + b;
      ReplaceConcat(a[1..], b, c, entity);
    }
  }

  lemma EscapeConcat(a: string, b: string)
    ensures EscapeHtml(a + b) == EscapeHtml(a) + EscapeHtml(b)
  {
    ReplaceConcat(a, b, '&', "&amp;");
    var a1, b1 := Replace(a, '&', "&amp;"), Replace(b, '&', "&amp;");
    ReplaceConcat(a1, b1, '<', "&lt;");
    var a2, b2 := Replace(a1, '<', "&lt;"), Replace(b1, '<', "&lt;");
    ReplaceConcat(a2, b2, '>', "&gt;");
    var a3, b3 := Replace(a2, '>', "&gt;"), Replace(b2, '>', "&gt;");
    ReplaceConcat(a3, b3, '"', "&quot;");
    ReplaceConcat(Replace(a3, '"', "&quot;"), Replace(b3, '"', "&quot;"), '\'', "&#39;");
  }

  lemma {:induction false} ReplaceAbsent(s: string, c: char, entity: string)
    requires c !in s
    ensures Replace(s, c, entity) == s
  {
    if s != [] { ReplaceAbsent(s[1..], c, entity); }
  }

  lemma ReplaceOne(c: char, entity: string)
    ensures Replace([c], c, entity) == entity
  {
    assert [c][1..] == [];
    assert Replace([c], c, entity) == entity + Replace([], c, entity);
  }

  /** The replacement for `c` makes `entity` of it; the later ones find nothing in that to replace. */
  lemma ReplaceStep(before: string, c: char, entity: string, after: string)
    requires if before == [c] then after == entity else c !in before && after == before
    ensures Replace(before, c, entity) == after
  {
    if before == [c] { ReplaceOne(c, entity); } else { ReplaceAbsent(before, c, entity); }
  }

  lemma EntityHasNone(c: char, e: string)
    requires e == Entity(c) && (c == '&' || c == '<' || c == '>' || c == '"' || c == '\'')
    ensures |e| > 1 && '<' !in e && '>' !in e && '"' !in e && '\'' !in e
  {
  }

  /** One replacement of the five, on a character that is still itself or already replaced. */
  lemma EscapeStep(c: char, d: char, entity: string, before: string, e: string)
    requires entity == Entity(d) && e == Entity(c)
    requires before == [c] || (before == e && c != d && d !in e)
    ensures Replace(before, d, entity) == if c == d then e else before
  {
    hide Entity, Replace;
    ReplaceStep(before, d, entity, if c == d then e else before);
  }

  lemma EscapeOneAs(c: char, e: string)
    requires e == Entity(c)
    ensures EscapeHtml([c]) == e
  {
    if c == '&' || c == '<' || c == '>' || c == '"' || c == '\'' { EntityHasNone(c, e); } else { assert e == [c]; }
    var s1 := if c == '&' then e else [c];
    var s2 := if c == '<' then e else s1;
    var s3 := if c == '>' then e else s2;
    var s4 := if c == '"' then e else s3;
    assert "&amp;" == Entity('&') && "&lt;" == Entity('<') && "&gt;" == Entity('>');
    assert "&quot;" == Entity('"') && "&#39;" == Entity('\'');
    hide Entity, Replace;
    EscapeStep(c, '&', "&amp;", [c], e);
    EscapeStep(c, '<', "&lt;", s1, e);
    EscapeStep(c, '>', "&gt;", s2, e);
    EscapeStep(c, '"', "&quot;", s3, e);
    EscapeStep(c, '\'', "&#39;", s4, e);
  }

  /** The five passes never re-escape each other's output. */
  lemma {:induction false} EscapeIsPointwise(s: string)
    ensures EscapeHtml(s) == EscapeEach(s)
  {
    if s == [] {
    } else {
      assert s == [s[0]] + s[1..];
      EscapeConcat([s[0]], s[1..]);
      EscapeOneAs(s[0], Entity(s[0]));
      EscapeIsPointwise(s[1..]);
    }
  }

  predicate IsRaw(c: char) { c == '<' || c == '>' || c == '"' || c == '\'' }

  predicate NoRaw(s: string) { forall i | 0 <= i < |s| :: !IsRaw(s[i]) }

  /** In an attribute the backtick is replaced as well. */
  function AttributeEach(s: string): string {
    if s == [] then "" else (if s[0] == '`' then "&#96;" else Entity(s[0])) + AttributeEach(s[1..])
  }

  lemma TickStep(c: char, e: string, rest: string)
    requires e == Entity(c)
    ensures Replace(e + rest, '`', "&#96;") == (if c == '`' then "&#96;" else e) + Replace(rest, '`', "&#96;")
  {
    ReplaceConcat(e, rest, '`', "&#96;");
    if c == '`' {
      assert e == ['`'];
      ReplaceOne('`', "&#96;");
    } else {
      ReplaceAbsent(e, '`', "&#96;");
    }
  }

  lemma {:induction false} AttributeIsPointwise(s: string)
    ensures EscapeAttribute(s) == AttributeEach(s)
  {
    EscapeIsPointwise(s);
    hide EscapeHtml, Entity;
    if s != [] {
      EscapeIsPointwise(s[1..]);
      AttributeIsPointwise(s[1..]);
      TickStep(s[0], Entity(s[0]), EscapeEach(s[1..]));
    }
  }

  lemma EntityHasNoRaw(c: char, entity: string)
    requires entity == Entity(c)
    ensures NoRaw(entity)
  {
  }

  lemma {:induction false} EscapeLeavesNoRaw(s: string)
    ensures NoRaw(EscapeHtml(s))
  {
    EscapeIsPointwise(s);
    hide Entity;
    if s != [] {
      hide EscapeHtml;
      EscapeLeavesNoRaw(s[1..]);
      EscapeIsPointwise(s[1..]);
      EntityHasNoRaw(s[0], Entity(s[0]));
    }
  }

  /** What the decoder does at the front of `s`. */
  function Read(s: string): (r: (char, nat))
    requires s != []
    ensures 0 < r.1 <= |s|
  {
    if "&amp;" <= s then ('&', 5)
    else if "&lt;" <= s then ('<', 4)
    else if "&gt;" <= s then ('>', 4)
    else if "&quot;" <= s then ('"', 6)
    else if "&#39;" <= s then ('\'', 5)
    else (s[0], 1)
  }

  /** A decoder that reads the entities back. */
  function Decode(s: string): string {
    if s == [] then ""
    else
      var (c, n) := Read(s);
      [c] + Decode(s[n..])
  }

  lemma ReadEntity(c: char, entity: string, s: string)
    requires entity == Entity(c) && entity <= s
    ensures s != [] && Read(s) == (c, |entity|)
  {
    assert s[0] == entity[0];
    if |entity| > 1 { assert s[1] == entity[1]; }
    if c == '<' || c == '>' { assert s[2] == entity[2]; }
  }

  lemma DecodeEntity(c: char, rest: string)
    ensures Decode(Entity(c) + rest) == [c] + Decode(rest)
  {
    var e := Entity(c);
    var s := e + rest;
    ReadEntity(c, e, s);
    hide Entity;
    hide Read;
    assert s[|e|..] == rest;
  }

  lemma {:induction false} DecodeEscape(s: string)
    ensures Decode(EscapeHtml(s)) == s
  {
    EscapeIsPointwise(s);
    if s != [] {
      DecodeEscape(s[1..]);
      EscapeIsPointwise(s[1..]);
      DecodeEntity(s[0], EscapeEach(s[1..]));
    }
  }

  lemma EscapeInjective(a: string, b: string)
    requires EscapeHtml(a) == EscapeHtml(b)
    ensures a == b
  {
    DecodeEscape(a);
    DecodeEscape(b);
  }
}
