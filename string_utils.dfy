/** The blank test of Apache Commons Lang's StringUtils, which the server and
    the configuration use for every "must be set" rule. */
module StringUtils {
  import opened Wrappers

  /** Java's Character.isWhitespace: the ASCII controls TAB, LF, VT, FF, CR,
      the separators U+001C..U+001F, SPACE, and the Unicode space, line and
      paragraph separators except the three non-breaking spaces
      (U+00A0, U+2007, U+202F). */
  predicate IsWhitespace(c: char) {
    || c == ' ' || c == '\t' || c == '\n' || c == '\U{B}' || c == '\U{C}' || c == '\r'
    || ('\U{1C}' <= c <= '\U{1F}')
    || c == '\U{1680}'
    || ('\U{2000}' <= c <= '\U{2006}')
    || ('\U{2008}' <= c <= '\U{200A}')
    || c == '\U{2028}' || c == '\U{2029}' || c == '\U{205F}' || c == '\U{3000}'
  }

  /** StringUtils.stripStart(str, null): the string without its leading
      whitespace. */
  function StripStart(t: string): (u: string)
    ensures |u| <= |t| && u == t[|t| - |u|..]
    ensures u != [] ==> !IsWhitespace(u[0])
  {
    if t != [] && IsWhitespace(t[0]) then StripStart(t[1..]) else t
  }

  /** Only whitespace is stripped, so nothing is left exactly when every
      character is whitespace. */
  lemma {:induction false} StripStartEmpty(t: string)
    ensures StripStart(t) == [] <==> forall i | 0 <= i < |t| :: IsWhitespace(t[i])
  {
    if t != [] && IsWhitespace(t[0]) {
      StripStartEmpty(t[1..]);
      assert forall i | 1 <= i < |t| :: t[i] == t[1..][i - 1];
    }
  }

  /** StringUtils.isBlank: null, empty, or whitespace only. */
  predicate IsBlank(s: Option<string>) {
    s.None? || forall i | 0 <= i < |s.value| :: IsWhitespace(s.value[i])
  }

  /** StringUtils.isNotBlank. */
  predicate IsNotBlank(s: Option<string>) {
    !IsBlank(s)
  }

  /** isBlank agrees with stripping: a value is blank exactly when it is null
      or nothing is left once its leading whitespace is stripped; so a value
      that is not blank is a non-empty string, and null and "" are blank. */
  lemma BlankIffStripsToEmpty(s: Option<string>)
    ensures IsBlank(s) <==> s.None? || StripStart(s.value) == []
    ensures IsNotBlank(s) <==> s.Some? && StripStart(s.value) != []
    ensures IsNotBlank(s) ==> |s.value| > 0
  {
    if s.Some? {
      StripStartEmpty(s.value);
    }
  }
}
