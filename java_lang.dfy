/** The parts of Java's integer and string semantics that the services rely on. */
module JavaLang {

  const INT_MIN: int := -0x8000_0000
  const INT_MAX: int := 0x7FFF_FFFF
  const LONG_MIN: int := -0x8000_0000_0000_0000
  const LONG_MAX: int := 0x7FFF_FFFF_FFFF_FFFF
  const LONG_MODULUS: int := 0x1_0000_0000_0000_0000

  /** A Java `int` (or a non-null `Integer`). */
  type Int = x: int | INT_MIN <= x <= INT_MAX

  /** A Java `long` (or a non-null `Long`). */
  type Long = x: int | LONG_MIN <= x <= LONG_MAX

  /** A `java.util.UUID`, as a number. */
  type Uuid = nat

  /** The two's-complement wrap-around of `long` arithmetic. */
  function WrapLong(x: int): (r: Long)
    ensures (x - r) % LONG_MODULUS == 0
    ensures LONG_MIN <= x <= LONG_MAX ==> r == x
  {
    (x - LONG_MIN) % LONG_MODULUS + LONG_MIN
  }

  /** `Character.isWhitespace`: the Unicode space, line and paragraph separators other than the
      no-break spaces U+00A0, U+2007 and U+202F, and the controls U+0009..U+000D and U+001C..U+001F. */
  predicate IsWhitespace(c: char)
  {
    || c == '\U{0020}' || c == '\U{1680}'
    || ('\U{2000}' <= c <= '\U{2006}') || ('\U{2008}' <= c <= '\U{200A}')
    || c == '\U{205F}' || c == '\U{3000}' || c == '\U{2028}' || c == '\U{2029}'
    || ('\U{0009}' <= c <= '\U{000D}') || ('\U{001C}' <= c <= '\U{001F}')
  }

  /** `String.isBlank`: every character is whitespace (so the empty string is blank). */
  function IsBlank(s: string): (blank: bool)
    ensures blank <==> forall i :: 0 <= i < |s| ==> IsWhitespace(s[i])
    // a no-break space makes a string non-blank
    ensures blank ==> forall i :: 0 <= i < |s| ==> s[i] != '\U{00A0}'
  {
    if s == [] then true else IsWhitespace(s[0]) && IsBlank(s[1..])
  }
}
