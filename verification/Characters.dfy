/**
 The character classes the client tests for, in the C locale, and the white
 space it skips.
 */
module Characters {

  predicate IsSpace(c: char) {
    c == ' ' || '\t' <= c <= '\r'
  }

  predicate IsDigit(c: char) {
    '0' <= c <= '9'
  }

  // What is left after the white space in front.
  function Skipped(s: string): (t: string)
    ensures |t| <= |s| && (t != "" ==> !IsSpace(t[0]))
  {
    if s != "" && IsSpace(s[0]) then Skipped(s[1..]) else s
  }

  // The pointer moves past white space.
  method SkipSpaces(source: string) returns (t: string)
    ensures t == Skipped(source)
  {
    t := source;
    while t != "" && IsSpace(t[0])
      invariant Skipped(t) == Skipped(source)
      decreases |t|
    {
      t := t[1..];
    }
  }

  lemma {:induction false} BlanksSkipped(blanks: string)
    requires forall c :: c in blanks ==> IsSpace(c)
    ensures Skipped(blanks) == ""
  {
    if blanks == "" {
    } else {
      assert blanks[0] in blanks && forall c :: c in blanks[1..] ==> c in blanks;
      BlanksSkipped(blanks[1..]);
    }
  }
}
