/** The two java.lang.String operations the bootstrap depends on:
    trim(), used to reject blank engine names, and equalsIgnoreCase(),
    used to recognise the clustering protocol engine. */
module JavaString {

  /** trim() drops every leading character whose code is at most U+0020. */
  function TrimLeading(s: string): (r: string)
    ensures |r| <= |s| && r == s[|s| - |r|..]
    ensures forall i :: 0 <= i < |s| - |r| ==> s[i] <= ' '
    ensures r != [] ==> r[0] > ' '
  {
    if s != [] && s[0] <= ' ' then TrimLeading(s[1..]) else s
  }

  /** ... and every trailing one. */
  function TrimTrailing(s: string): (r: string)
    ensures |r| <= |s| && r == s[..|r|]
    ensures forall i :: |r| <= i < |s| ==> s[i] <= ' '
    ensures r != [] ==> r[|r| - 1] > ' '
  {
    if s != [] && s[|s| - 1] <= ' ' then TrimTrailing(s[..|s| - 1]) else s
  }

  /** String.trim(): empty exactly when every character is a space or a control character. */
  function Trim(s: string): (r: string)
    ensures r == [] <==> forall i :: 0 <= i < |s| ==> s[i] <= ' '
    ensures r != [] ==> r[0] > ' ' && r[|r| - 1] > ' '
  {
    var t := TrimLeading(s);
    assert t != [] ==> s[|s| - |t|] == t[0];
    TrimTrailing(t)
  }

  /** Upper-case mapping of one character (ASCII letters only). */
  function ToUpper(c: char): char {
    if 'a' <= c <= 'z' then (c as int - 32) as char else c
  }

  /** Lower-case mapping of one character (ASCII letters only). */
  function ToLower(c: char): char {
    if 'A' <= c <= 'Z' then (c as int + 32) as char else c
  }

  /** The per-character test of String.regionMatches(true, ...), which equalsIgnoreCase uses. */
  predicate CharEqualsIgnoreCase(a: char, b: char) {
    a == b || ToUpper(a) == ToUpper(b) || ToLower(ToUpper(a)) == ToLower(ToUpper(b))
  }

  /** String.equalsIgnoreCase on a non-null argument. */
  predicate EqualsIgnoreCase(a: string, b: string) {
    |a| == |b| && forall i :: 0 <= i < |a| ==> CharEqualsIgnoreCase(a[i], b[i])
  }
}
