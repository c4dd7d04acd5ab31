/** White space as the standard library of the source trims it. */
module Texts {

  predicate IsSpace(c: char) {
    var n := c as int;
    || 0x9 <= n <= 0xD || n == 0x20 || n == 0x85 || n == 0xA0 || n == 0x1680
    || 0x2000 <= n <= 0x200A || n == 0x2028 || n == 0x2029 || n == 0x202F || n == 0x205F || n == 0x3000
  }

  predicate IsBlankText(s: string) {
    forall c :: c in s ==> IsSpace(c)
  }

  function TrimStart(s: string): (t: string)
    ensures |t| <= |s| && s[|s|-|t|..] == t
    ensures t != "" ==> !IsSpace(t[0])
  {
    if s == "" || !IsSpace(s[0]) then s else TrimStart(s[1..])
  }

  function TrimEnd(s: string): (t: string)
    ensures |t| <= |s| && s[..|t|] == t
    ensures t != "" ==> !IsSpace(t[|t|-1])
  {
    if s == "" || !IsSpace(s[|s|-1]) then s else TrimEnd(s[..|s|-1])
  }

  function Trim(s: string): string {
    TrimEnd(TrimStart(s))
  }

  lemma TrimKeepsSharpEnds(s: string)
    ensures Trim(s) == s ==> TrimStart(s) == s && TrimEnd(s) == s
  {
    var t := TrimStart(s);
    assert |TrimEnd(t)| <= |t| <= |s|;
  }

  lemma TrimIsTrimmed(s: string)
    ensures Trim(Trim(s)) == Trim(s)
  {
    var t := Trim(s);
    if t != "" {
      var u := TrimStart(s);
      assert t == u[..|t|] && t[0] == u[0];
    }
  }
}
