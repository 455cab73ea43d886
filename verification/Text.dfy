/** The string operations of the Go library the program uses, with what they promise. */
module Text {

  predicate Occurs(s: string, sub: string, i: int) {
    0 <= i <= |s| - |sub| && s[i..i + |sub|] == sub
  }

  ghost predicate Contains(s: string, sub: string) {
    exists i :: Occurs(s, sub, i)
  }

  // strings.Index: the first place where sub occurs, or -1.
  function Index(s: string, sub: string): (r: int)
    ensures r == -1 <==> forall i :: !Occurs(s, sub, i)
    ensures r != -1 ==> Occurs(s, sub, r) && forall i | 0 <= i < r :: !Occurs(s, sub, i)
  {
    IndexFrom(s, sub, 0)
  }

  function IndexFrom(s: string, sub: string, from: nat): (r: int)
    requires from <= |s| + 1
    requires forall i | 0 <= i < from :: !Occurs(s, sub, i)
    ensures r == -1 <==> forall i :: !Occurs(s, sub, i)
    ensures r != -1 ==> Occurs(s, sub, r) && forall i | 0 <= i < r :: !Occurs(s, sub, i)
    decreases |s| + 1 - from
  {
    if from > |s| - |sub| then -1
    else if Occurs(s, sub, from) then from
    else IndexFrom(s, sub, from + 1)
  }

  // unicode.IsSpace
  predicate IsSpace(c: char) {
    || c in {' ', '\t', '\n', '\r', '\U{000B}', '\U{000C}', '\U{0085}', '\U{00A0}', '\U{1680}'}
    || '\U{2000}' <= c <= '\U{200A}'
    || c in {'\U{2028}', '\U{2029}', '\U{202F}', '\U{205F}', '\U{3000}'}
  }

  // strings.TrimSpace
  function TrimLeft(s: string): string {
    if s != "" && IsSpace(s[0]) then TrimLeft(s[1..]) else s
  }

  function TrimRight(s: string): string {
    if s != "" && IsSpace(s[|s| - 1]) then TrimRight(s[..|s| - 1]) else s
  }

  function TrimSpace(s: string): string {
    TrimRight(TrimLeft(s))
  }

  ghost predicate Blank(s: string) {
    forall i | 0 <= i < |s| :: IsSpace(s[i])
  }

  lemma {:induction false} TrimLeftCuts(s: string) returns (n: nat)
    ensures n <= |s| && Blank(s[..n]) && TrimLeft(s) == s[n..]
    ensures n < |s| ==> !IsSpace(s[n])
  {
    n := 0;
    if s != "" && IsSpace(s[0]) {
      n := TrimLeftCuts(s[1..]);
      n := n + 1;
    }
  }

  lemma {:induction false} TrimRightCuts(s: string) returns (n: nat)
    ensures n <= |s| && Blank(s[n..]) && TrimRight(s) == s[..n]
    ensures n > 0 ==> !IsSpace(s[n - 1])
  {
    n := |s|;
    if s != "" && IsSpace(s[|s| - 1]) {
      var init := s[..|s| - 1];
      n := TrimRightCuts(init);
      assert s[n..] == init[n..] + [s[|s| - 1]];
    }
  }

  // What is cut off at the two ends is white space, and what is left neither starts nor ends with any.
  lemma TrimSpaceIsExact(s: string) returns (i: nat, j: nat)
    ensures i <= j <= |s| && TrimSpace(s) == s[i..j] && Blank(s[..i]) && Blank(s[j..])
    ensures i < j ==> !IsSpace(s[i]) && !IsSpace(s[j - 1])
  {
    i := TrimLeftCuts(s);
    var n := TrimRightCuts(s[i..]);
    j := i + n;
    assert s[i..][n..] == s[j..];
  }

  // The lower case of a character, as far as a comparison with ASCII text can tell: besides A to Z
  // only the Kelvin sign and the dotted capital I become ASCII letters.
  function LowerChar(c: char): char {
    if 'A' <= c <= 'Z' then c - 'A' + 'a'
    else if c == '\U{212A}' then 'k'
    else if c == '\U{0130}' then 'i'
    else c
  }

  function ToLower(s: string): (r: string)
    ensures |r| == |s| && forall i | 0 <= i < |s| :: r[i] == LowerChar(s[i])
  {
    seq(|s|, i requires 0 <= i < |s| => LowerChar(s[i]))
  }

  // The capitals of the alphabet become its small letters, and nothing else of ASCII changes.
  lemma LettersAreLowered(c: char)
    ensures forall i | 0 <= i < 26 && c == "ABCDEFGHIJKLMNOPQRSTUVWXYZ"[i] ::
              LowerChar(c) == "abcdefghijklmnopqrstuvwxyz"[i]
    ensures c < '\U{0080}' && c !in "ABCDEFGHIJKLMNOPQRSTUVWXYZ" ==> LowerChar(c) == c
  {
    if 'A' <= c <= 'Z' {
      var k := c as int - 'A' as int;
      assert "ABCDEFGHIJKLMNOPQRSTUVWXYZ"[k] == c;
    }
  }
}
