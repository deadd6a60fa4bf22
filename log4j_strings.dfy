/** org.apache.logging.log4j.util.Strings.isBlank, which the User constructor uses. */
module Log4jStrings {
  import opened Java

  /** Walks the characters front to back and stops at the first non-whitespace one. */
  predicate AllWhitespace(cs: string) {
    |cs| == 0 || (IsWhitespace(cs[0]) && AllWhitespace(cs[1..]))
  }

  /** A string is blank when it is null, empty, or made of whitespace only. */
  predicate IsBlank(s: JString) {
    s.Null? || AllWhitespace(s.chars)
  }

  /** The character walk agrees with the plain definition: every character is whitespace. */
  lemma {:induction false} AllWhitespaceIffEvery(cs: string)
    ensures AllWhitespace(cs) <==> forall i :: 0 <= i < |cs| ==> IsWhitespace(cs[i])
  {
    if |cs| > 0 {
      AllWhitespaceIffEvery(cs[1..]);
      assert forall i :: 1 <= i < |cs| ==> cs[i] == cs[1..][i - 1];
    }
  }

  /** Hence a non-null string is non-blank exactly when it holds some non-whitespace character. */
  lemma NonBlankIffVisibleChar(s: JString)
    ensures !IsBlank(s) <==> s.Str? && exists i :: 0 <= i < |s.chars| && !IsWhitespace(s.chars[i])
  {
    if s.Str? {
      AllWhitespaceIffEvery(s.chars);
    }
  }
}
