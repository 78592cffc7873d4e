/** Case and padding of ASCII text. */
module Text {

  function UpperChar(c: char): (u: char)
    ensures !('a' <= u <= 'z')
  {
    if 'a' <= c <= 'z' then (c as int - 32) as char else c
  }

  function Upper(s: string): (u: string)
    ensures |u| == |s|
    ensures forall i :: 0 <= i < |s| ==> u[i] == UpperChar(s[i])
  {
    seq(|s|, i requires 0 <= i < |s| => UpperChar(s[i]))
  }

  lemma UpperIdempotent(s: string)
    ensures Upper(Upper(s)) == Upper(s)
  {
    assert forall i :: 0 <= i < |s| ==> UpperChar(Upper(s)[i]) == Upper(s)[i];
  }

  /** White space, as far as it is ASCII. */
  predicate Blank(c: char) { c == ' ' || '\t' <= c <= '\r' || '\U{1C}' <= c <= '\U{1F}' }

  predicate Unpadded(s: string) { s != "" ==> !Blank(s[0]) && !Blank(s[|s| - 1]) }

  function Strip(s: string): (t: string)
    ensures |t| <= |s|
    ensures Unpadded(t)
    ensures t == s <==> Unpadded(s)
    decreases |s|
  {
    if s == "" then ""
    else if Blank(s[0]) then Strip(s[1..])
    else if Blank(s[|s| - 1]) then Strip(s[..|s| - 1])
    else s
  }

  /** Nothing is left exactly of white space. */
  lemma {:induction false} StripsToNothing(s: string)
    ensures Strip(s) == "" <==> forall i :: 0 <= i < |s| ==> Blank(s[i])
    decreases |s|
  {
    if s != "" {
      if Blank(s[0]) {
        StripsToNothing(s[1..]);
        assert forall i :: 0 < i < |s| ==> s[i] == s[1..][i - 1];
      } else if Blank(s[|s| - 1]) {
        StripsToNothing(s[..|s| - 1]);
        assert s[..|s| - 1] != "" ==> s[..|s| - 1][0] == s[0];
      }
    }
  }

  lemma UpperKeepsPadding(s: string)
    ensures Unpadded(Upper(s)) <==> Unpadded(s)
  {}

  function LowerChar(c: char): (l: char)
    ensures !('A' <= l <= 'Z')
    ensures l == c || ('a' <= l <= 'z' && UpperChar(l) == c)
  {
    if 'A' <= c <= 'Z' then (c as int + 32) as char else c
  }

  function Lower(s: string): (l: string)
    ensures |l| == |s|
    ensures forall i :: 0 <= i < |s| ==> l[i] == LowerChar(s[i])
  {
    seq(|s|, i requires 0 <= i < |s| => LowerChar(s[i]))
  }
}
