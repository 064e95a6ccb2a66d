/** The string predicates the handlers use: `EndsWith` (ordinal and ordinal-ignore-case)
    and `string.IsNullOrWhiteSpace`. Strings are sequences of characters. */
module Text {

  /** Case-sensitive suffix test (JavaScript's `String.prototype.endsWith`). */
  predicate EndsWith(s: string, suffix: string) {
    |suffix| <= |s| && s[|s| - |suffix|..] == suffix
  }

  /** Upper-cases the ASCII letters and leaves every other character alone. */
  function ToUpperAscii(c: char): char {
    if 'a' <= c <= 'z' then (c as int - 32) as char else c
  }

  /** Suffix test under `StringComparison.OrdinalIgnoreCase`, with case folding restricted to
      ASCII letters.  For the only suffix the handlers test, `_error`, this agrees with .NET:
      the only characters whose invariant upper case is `E`, `R` or `O` are those six letters. */
  predicate EndsWithIgnoreCase(s: string, suffix: string) {
    |suffix| <= |s| &&
    forall i :: 0 <= i < |suffix| ==> ToUpperAscii(s[|s| - |suffix| + i]) == ToUpperAscii(suffix[i])
  }

  /** The characters .NET's `char.IsWhiteSpace` accepts (Unicode Zs, Zl, Zp and the
      control characters U+0009 to U+000D and U+0085). */
  predicate IsWhiteSpace(c: char) {
    c == ' ' || ('\t' <= c <= '\r') || c == '\U{85}' || c == '\U{A0}' || c == '\U{1680}' ||
    ('\U{2000}' <= c <= '\U{200A}') || c == '\U{2028}' || c == '\U{2029}' ||
    c == '\U{202F}' || c == '\U{205F}' || c == '\U{3000}'
  }

  /** `string.IsNullOrWhiteSpace` for a non-null string: empty or whitespace only. */
  predicate IsNullOrWhiteSpace(s: string) {
    forall i :: 0 <= i < |s| ==> IsWhiteSpace(s[i])
  }

  /** An exact suffix is also a suffix when case is ignored. */
  lemma EndsWithIgnoringCase(s: string, suffix: string)
    requires EndsWith(s, suffix)
    ensures EndsWithIgnoreCase(s, suffix)
  {
    forall i | 0 <= i < |suffix|
      ensures s[|s| - |suffix| + i] == suffix[i]
    {
      assert s[|s| - |suffix|..][i] == suffix[i];
    }
  }
}
