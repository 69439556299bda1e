/**
 * The few .NET string primitives the core calls: `char.IsWhiteSpace`,
 * `string.IsNullOrWhiteSpace`, and `string.Equals(_, _, StringComparison.OrdinalIgnoreCase)`
 * restricted to what a comparison against an ASCII literal can observe.
 */
module DotNetText {
  import opened Wrappers

  /**
   * `char.IsWhiteSpace`: the Unicode space, line and paragraph separators,
   * the control characters U+0009 to U+000D, and U+0085.
   */
  predicate IsWhiteSpace(c: char)
  {
    var n := c as int;
    || 0x09 <= n <= 0x0D
    || n == 0x20 || n == 0x85 || n == 0xA0 || n == 0x1680
    || 0x2000 <= n <= 0x200A
    || n == 0x2028 || n == 0x2029 || n == 0x202F || n == 0x205F || n == 0x3000
  }

  /** `string.IsNullOrWhiteSpace`: null, empty, or made of white space only. */
  predicate IsNullOrWhiteSpace(s: Option<string>)
  {
    match s
    case None => true
    case Some(t) => forall i :: 0 <= i < |t| ==> IsWhiteSpace(t[i])
  }

  /** The ordinal upper-case mapping of the ASCII letters; every other character maps to itself. */
  function AsciiToUpper(c: char): char
  {
    if 'a' <= c <= 'z' then (c as int - 32) as char else c
  }

  /**
   * Ordinal comparison ignoring case, with case folded per character. Against
   * a pattern made of ASCII letters this agrees with .NET's
   * `StringComparison.OrdinalIgnoreCase`.
   */
  predicate EqualsOrdinalIgnoreCase(a: string, b: string)
  {
    |a| == |b| && forall i :: 0 <= i < |a| ==> AsciiToUpper(a[i]) == AsciiToUpper(b[i])
  }

  /** A character folds onto an ASCII lower-case letter exactly when it is that letter or its capital. */
  lemma FoldsOntoLetter(c: char, letter: char)
    requires 'a' <= letter <= 'z'
    ensures AsciiToUpper(c) == AsciiToUpper(letter) <==> c == letter || c as int == letter as int - 32
  {
  }
}
