/**
 The `{{ name }}` values of a clone profile. Two scanners read them, one to validate a profile when
 it is loaded and one to render it for a machine; here both are shown to follow one parse of the
 value.
 */
module ProfileTemplates {
  import opened Wrappers
  import opened Text

  // A value as the scanners see it: text up to the first "{{", the body up to the next "}}", and so
  // on. End has no "{{"; Open has one that is never closed.
  datatype Template =
    | End(text: string)
    | Open(text: string, rest: string)
    | Hole(text: string, body: string, next: Template)

  function Print(t: Template): string {
    match t
    case End(text) => text
    case Open(text, rest) => text + "{{" + rest
    case Hole(text, body, next) => text + "{{" + body + "}}" + Print(next)
  }

  // No "{{" before the place where one is meant to be.
  ghost predicate LiteralOk(text: string) {
    !Contains(text, "{{") && (text != "" ==> text[|text| - 1] != '{')
  }

  ghost predicate BodyOk(body: string) {
    !Contains(body, "}}") && (body != "" ==> body[|body| - 1] != '}')
  }

  ghost predicate Canonical(t: Template) {
    match t
    case End(text) => !Contains(text, "{{")
    case Open(text, rest) => LiteralOk(text) && !Contains(rest, "}}")
    case Hole(text, body, next) => LiteralOk(text) && BodyOk(body) && Canonical(next)
  }

  // What follows the two characters at i.
  function After(s: string, i: nat): string
    requires i + 2 <= |s|
  {
    s[i + 2..]
  }

  function Parse(value: string): Template
    decreases |value|
  {
    var start := Index(value, "{{");
    if start == -1 then End(value)
    else
      var tail := After(value, start);
      var end := Index(tail, "}}");
      if end == -1 then Open(value[..start], tail)
      else Hole(value[..start], tail[..end], Parse(After(tail, end)))
  }

  // ----- parse and print are inverse

  lemma CutAtPair(s: string, pair: string, i: int)
    requires |pair| == 2 && Occurs(s, pair, i)
    ensures s == s[..i] + pair + After(s, i)
  {
  }

  lemma JoinAtPair(a: string, pair: string, b: string)
    requires |pair| == 2
    ensures (a + pair + b)[..|a|] == a && After(a + pair + b, |a|) == b
  {
  }

  lemma {:induction false} PrintParse(value: string)
    ensures Print(Parse(value)) == value
    decreases |value|
  {
    var start := Index(value, "{{");
    if start != -1 {
      var tail := After(value, start);
      CutAtPair(value, "{{", start);
      var end := Index(tail, "}}");
      if end != -1 {
        CutAtPair(tail, "}}", end);
        PrintParse(After(tail, end));
        Regroup(value[..start], "{{", tail[..end], "}}", After(tail, end));
      }
    }
  }

  lemma Regroup(a: string, b: string, c: string, d: string, e: string)
    ensures a + b + c + d + e == a + b + (c + d + e)
  {
  }

  // A doubled character first occurs right after a text exactly when the text neither contains it nor
  // ends in its half.
  lemma FirstPair(text: string, c: char, rest: string)
    ensures Index(text + [c, c] + rest, [c, c]) == |text| <==>
              !Contains(text, [c, c]) && (text != "" ==> text[|text| - 1] != c)
  {
    var s, pair := text + [c, c] + rest, [c, c];
    assert s[|text|..|text| + 2] == pair;
    assert Occurs(s, pair, |text|);
    forall i | 0 <= i <= |text| - 2 ensures Occurs(s, pair, i) <==> Occurs(text, pair, i) {
      assert s[i..i + 2] == text[i..i + 2];
    }
    if text != "" {
      var i := |text| - 1;
      assert s[i..i + 2] == [text[i], c];
      assert pair[0] == c && [text[i], c][0] == text[i];
      assert Occurs(s, pair, i) <==> text[i] == c;
    }
    if !Contains(text, pair) && (text != "" ==> text[|text| - 1] != c) {
      forall i | 0 <= i < |text| ensures !Occurs(s, pair, i) {
        assert i <= |text| - 2 ==> !Occurs(text, pair, i);
      }
    }
  }

  lemma {:induction false} ParseCanonical(value: string)
    ensures Canonical(Parse(value))
    decreases |value|
  {
    var start := Index(value, "{{");
    if start != -1 {
      var tail := After(value, start);
      CutAtPair(value, "{{", start);
      FirstPair(value[..start], '{', tail);
      var end := Index(tail, "}}");
      if end != -1 {
        CutAtPair(tail, "}}", end);
        FirstPair(tail[..end], '}', After(tail, end));
        ParseCanonical(After(tail, end));
      }
    }
  }

  lemma ParseOpen(text: string, rest: string)
    requires LiteralOk(text) && !Contains(rest, "}}")
    ensures Parse(text + "{{" + rest) == Open(text, rest)
  {
    FirstPair(text, '{', rest);
    JoinAtPair(text, "{{", rest);
  }

  lemma ParseHole(text: string, body: string, rest: string)
    requires LiteralOk(text) && BodyOk(body)
    ensures Parse(text + "{{" + (body + "}}" + rest)) == Hole(text, body, Parse(rest))
  {
    var tail := body + "}}" + rest;
    FirstPair(text, '{', tail);
    JoinAtPair(text, "{{", tail);
    FirstPair(body, '}', rest);
    JoinAtPair(body, "}}", rest);
  }

  lemma {:induction false} ParsePrint(t: Template)
    requires Canonical(t)
    ensures Parse(Print(t)) == t
  {
    match t
    case End(text) =>
    case Open(text, rest) => ParseOpen(text, rest);
    case Hole(text, body, next) =>
      ParsePrint(next);
      ParseHole(text, body, Print(next));
      Regroup(text, "{{", body, "}}", Print(next));
  }
}
