/**
 * The string test the survey constructor and lookups use:
 * `StringUtils.isEmptyOrWhitespaceOnly(s)`, which holds when `s` is null or
 * when Java's `String.trim()` leaves nothing. `trim()` strips every leading
 * and trailing character whose code is at most U+0020.
 */
module JavaStrings {
  import opened Wrappers

  /** A character that Java's `String.trim()` strips. */
  predicate IsTrimmed(c: char) { c <= ' ' }

  /** `s` with its leading trimmed characters removed. */
  function TrimStart(s: string): (r: string)
    ensures |r| <= |s| && r == s[|s| - |r|..]
    ensures forall i :: 0 <= i < |s| - |r| ==> IsTrimmed(s[i])
    ensures r != [] ==> !IsTrimmed(r[0])
  {
    if |s| > 0 && IsTrimmed(s[0]) then TrimStart(s[1..]) else s
  }

  /** `s` with its trailing trimmed characters removed. */
  function TrimEnd(s: string): (r: string)
    ensures |r| <= |s| && r == s[..|r|]
    ensures forall i :: |r| <= i < |s| ==> IsTrimmed(s[i])
    ensures r != [] ==> !IsTrimmed(r[|r| - 1])
  {
    if |s| > 0 && IsTrimmed(s[|s| - 1]) then TrimEnd(s[..|s| - 1]) else s
  }

  /** Java's `String.trim()`. */
  function Trim(s: string): string
  {
    TrimEnd(TrimStart(s))
  }

  /** `StringUtils.isEmptyOrWhitespaceOnly`, with `None` standing for null. */
  predicate IsEmptyOrWhitespaceOnly(s: Option<string>)
  {
    s.None? || Trim(s.value) == ""
  }

  /** A string is blank exactly when every one of its characters is trimmed. */
  lemma BlankIffAllTrimmed(s: string)
    ensures Trim(s) == "" <==> forall i :: 0 <= i < |s| ==> IsTrimmed(s[i])
  {
    var t := TrimStart(s);
    if t != "" {
      assert !IsTrimmed(s[|s| - |t|]);
      assert TrimEnd(t) != "";
    }
  }

  /** A string whose first character is not trimmed is not blank. */
  lemma NotBlank(s: string)
    requires |s| > 0 && !IsTrimmed(s[0])
    ensures !IsEmptyOrWhitespaceOnly(Some(s))
  {
    BlankIffAllTrimmed(s);
  }
}
