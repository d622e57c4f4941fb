/**
 Characters by kind, as the C locale sees them.  A string holds one character per byte.
 */
module Characters {
  predicate IsAlpha(c: char) {
    'A' <= c <= 'Z' || 'a' <= c <= 'z'
  }

  predicate IsDigit(c: char) {
    '0' <= c <= '9'
  }

  predicate IsPunct(c: char) {
    '!' <= c <= '/' || ':' <= c <= '@' || '[' <= c <= '`' || '{' <= c <= '~'
  }

  /** What `c_str()` shows of a string: nothing from the first NUL on. */
  function CString(s: string): (c: string)
    ensures '\0' !in c && c <= s
    ensures |c| < |s| ==> s[|c|] == '\0'
  {
    if s == [] || s[0] == '\0' then [] else [s[0]] + CString(s[1..])
  }

  /** Nothing is cut exactly where there is no NUL. */
  lemma CStringIsWholeIff(s: string)
    ensures CString(s) == s <==> '\0' !in s
  {
  }
}
