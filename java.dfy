/** The parts of the Java platform the model relies on: strings that may be null,
    Optional, the exceptions the core raises, and Character.isWhitespace. */
module Java {

  /** A java.lang.String reference: either null or a sequence of characters. */
  datatype JString = Null | Str(chars: string)

  /** The text string concatenation writes for a value: "null" for a null reference. */
  function ConcatText(s: JString): string {
    match s
    case Null => "null"
    case Str(cs) => cs
  }

  /** java.util.Optional. */
  datatype Optional<T> = Empty | Of(value: T)

  /** The exceptions the modelled code raises. */
  datatype Exception =
    | BusinessException(message: string)
    | NullPointerException
    | DuplicateIdException(id: int)

  /** A call that either returns a value or throws. */
  datatype Result<T> = Success(value: T) | Failure(error: Exception)

  /** A call with no value that either completes or throws. */
  datatype Outcome = Pass | Fail(error: Exception)

  /** Character.isWhitespace: the Unicode space, line and paragraph separators other than the
      non-breaking ones (U+00A0, U+2007, U+202F), and the controls U+0009-U+000D, U+001C-U+001F. */
  predicate IsWhitespace(c: char) {
    || ('\t' <= c <= '\r')
    || ('\U{1C}' <= c <= ' ')
    || c == '\U{1680}'
    || ('\U{2000}' <= c <= '\U{2006}')
    || ('\U{2008}' <= c <= '\U{200A}')
    || c == '\U{2028}' || c == '\U{2029}'
    || c == '\U{205F}' || c == '\U{3000}'
  }
}
