/** The few java.lang.String and commons-lang StringUtils operations the plugin
    relies on, with Java's null handling and index conventions. */
module JavaStrings {
  import opened Wrappers

  /** StringUtils.isEmpty: null or the empty string. */
  predicate IsEmpty(s: Option<string>) {
    s.None? || s.value == ""
  }

  /** Character.isWhitespace, by the Java 8 character tables: the Unicode space
      separators other than the non-breaking ones, the line and paragraph
      separators, and the ASCII control characters tab through carriage return
      and the four information separators. */
  predicate IsWhitespace(c: char) {
    || c == ' ' || ('\t' <= c <= '\r') || ('\U{1C}' <= c <= '\U{1F}')
    || c == '\U{1680}' || c == '\U{180E}'
    || ('\U{2000}' <= c <= '\U{2006}') || ('\U{2008}' <= c <= '\U{200A}')
    || c == '\U{2028}' || c == '\U{2029}' || c == '\U{205F}' || c == '\U{3000}'
  }

  /** StringUtils.isBlank: null, empty, or whitespace only. */
  predicate IsBlank(s: Option<string>) {
    s.None? || forall i :: 0 <= i < |s.value| ==> IsWhitespace(s.value[i])
  }

  /** String.startsWith. */
  predicate StartsWith(s: string, prefix: string) {
    |prefix| <= |s| && s[..|prefix|] == prefix
  }

  /** String.endsWith. */
  predicate EndsWith(s: string, suffix: string) {
    |suffix| <= |s| && s[|s| - |suffix|..] == suffix
  }

  /** pat occurs in s starting at index j. */
  predicate OccursAt(s: string, pat: string, j: int) {
    0 <= j && j + |pat| <= |s| && s[j..j + |pat|] == pat
  }

  /** String.lastIndexOf(String): the greatest index at which pat occurs, or -1. */
  function LastIndexOf(s: string, pat: string): (k: int)
    ensures -1 <= k <= |s|
    ensures k >= 0 ==> OccursAt(s, pat, k)
    ensures forall j :: k < j <= |s| ==> !OccursAt(s, pat, j)
  {
    LastIndexAtOrBefore(s, pat, |s|)
  }

  /** The greatest index not above i at which pat occurs, or -1. */
  function LastIndexAtOrBefore(s: string, pat: string, i: int): (k: int)
    requires -1 <= i <= |s|
    ensures -1 <= k <= i
    ensures k >= 0 ==> OccursAt(s, pat, k)
    ensures forall j :: k < j <= i ==> !OccursAt(s, pat, j)
    decreases i + 1
  {
    if i < 0 then -1
    else if OccursAt(s, pat, i) then i
    else LastIndexAtOrBefore(s, pat, i - 1)
  }

  /** The characters '.' does not match without DOTALL: Java's line terminators. */
  predicate IsLineTerminator(c: char) {
    c == '\n' || c == '\r' || c == '\U{85}' || c == '\U{2028}' || c == '\U{2029}'
  }

  /** A string '.*' matches as a whole in a regex without DOTALL. */
  predicate HasNoLineTerminator(s: string) {
    forall i :: 0 <= i < |s| ==> !IsLineTerminator(s[i])
  }

  /** The first index at or after i that holds c, or -1 when there is none. */
  function IndexOfFrom(s: string, c: char, i: nat): (k: int)
    requires i <= |s|
    ensures k == -1 || i <= k < |s|
    ensures k >= 0 ==> s[k] == c
    ensures forall j :: i <= j < |s| && (k < 0 || j < k) ==> s[j] != c
    decreases |s| - i
  {
    if i == |s| then -1
    else if s[i] == c then i
    else IndexOfFrom(s, c, i + 1)
  }

  /** String.replaceFirst(c, "") for a pattern that is one plain character:
      the first occurrence of c is removed. */
  function RemoveFirst(s: string, c: char): (r: string)
    ensures c !in s ==> r == s
    ensures c in s ==> |r| == |s| - 1
    ensures c in s ==> exists i :: 0 <= i < |s| && s[i] == c && c !in s[..i] && r == s[..i] + s[i + 1..]
  {
    var k := IndexOfFrom(s, c, 0);
    if k < 0 then s
    else
      assert c !in s[..k] by {
        forall j | 0 <= j < k ensures s[..k][j] != c {
          assert s[..k][j] == s[j];
        }
      }
      s[..k] + s[k + 1..]
  }

  /** String.substring(begin, end), which throws unless 0 <= begin <= end <= length. */
  function Substring(s: string, begin: int, end: int): (r: Result<string, JavaException>)
    ensures r.Success? <==> 0 <= begin <= end <= |s|
    ensures r.Failure? ==> r.error == StringIndexOutOfBoundsException
    ensures r.Success? ==> |r.value| == end - begin && s == s[..begin] + r.value + s[end..]
  {
    if 0 <= begin <= end <= |s| then Success(s[begin..end])
    else Failure(StringIndexOutOfBoundsException)
  }
}
