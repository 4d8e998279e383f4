/**
 * `String.prototype.trim` of ECMAScript: removal of the WhiteSpace and
 * LineTerminator code points (ECMA-262, sections 12.2 and 12.3) from both ends
 * of a string.
 */
module JsString {

  /** WhiteSpace (TAB, VT, FF, ZWNBSP and every space separator) or LineTerminator (LF, CR, LS, PS). */
  predicate IsWhitespace(c: char) {
    || c == '\U{0009}' || c == '\U{000B}' || c == '\U{000C}' || c == '\U{FEFF}'
    || c == '\U{0020}' || c == '\U{00A0}' || c == '\U{1680}'
    || ('\U{2000}' <= c <= '\U{200A}')
    || c == '\U{202F}' || c == '\U{205F}' || c == '\U{3000}'
    || c == '\U{000A}' || c == '\U{000D}' || c == '\U{2028}' || c == '\U{2029}'
  }

  predicate AllWhitespace(s: string) {
    forall i :: 0 <= i < |s| ==> IsWhitespace(s[i])
  }

  /** A string that `trim` leaves alone and that is not empty: what the backend stores. */
  predicate IsTrimmedNonEmpty(t: string) {
    t != [] && !IsWhitespace(t[0]) && !IsWhitespace(t[|t| - 1])
  }

  /** `trimStart`: the suffix of `s` left after dropping its leading whitespace. */
  function TrimStart(s: string): (r: string)
    ensures |r| <= |s| && r == s[|s| - |r|..]
    ensures forall i :: 0 <= i < |s| - |r| ==> IsWhitespace(s[i])
    ensures r != [] ==> !IsWhitespace(r[0])
    decreases |s|
  {
    if s != [] && IsWhitespace(s[0]) then TrimStart(s[1..]) else s
  }

  /** `trimEnd`: the prefix of `s` left after dropping its trailing whitespace. */
  function TrimEnd(s: string): (r: string)
    ensures |r| <= |s| && r == s[..|r|]
    ensures forall i :: |r| <= i < |s| ==> IsWhitespace(s[i])
    ensures r != [] ==> !IsWhitespace(r[|r| - 1])
    decreases |s|
  {
    if s != [] && IsWhitespace(s[|s| - 1]) then TrimEnd(s[..|s| - 1]) else s
  }

  /** `trim`: both ends at once. */
  function Trim(s: string): (r: string)
    ensures |r| <= |s|
    ensures r != [] ==> IsTrimmedNonEmpty(r)
  {
    TrimEnd(TrimStart(s))
  }

  /**
   * `s[a..b]` is the trimmed form of `s`: everything outside it is whitespace,
   * and when it is not empty it starts and ends with a non-whitespace character.
   */
  ghost predicate IsTrimOf(s: string, a: int, b: int) {
    && 0 <= a <= b <= |s|
    && (forall i :: 0 <= i < a ==> IsWhitespace(s[i]))
    && (forall i :: b <= i < |s| ==> IsWhitespace(s[i]))
    && (a < b ==> !IsWhitespace(s[a]) && !IsWhitespace(s[b - 1]))
  }

  /** `Trim(s)` is a slice of `s` with the defining properties of the trimmed form. */
  lemma TrimSlice(s: string) returns (a: nat, b: nat)
    ensures IsTrimOf(s, a, b) && Trim(s) == s[a..b]
  {
    var t := TrimStart(s);
    a := |s| - |t|;
    b := a + |TrimEnd(t)|;
    assert t == s[a..];
    assert TrimEnd(t) == t[..b - a] == s[a..b];
    forall i | b <= i < |s| ensures IsWhitespace(s[i]) {
      assert s[i] == t[i - a];
    }
    if a < b {
      assert s[a] == TrimEnd(t)[0];
    }
  }

  /** A non-whitespace character of `s` lies inside every trimmed form of `s`. */
  lemma NonWhitespaceInside(s: string, a: int, b: int, i: int)
    requires IsTrimOf(s, a, b) && 0 <= i < |s| && !IsWhitespace(s[i])
    ensures a <= i < b
  {
  }

  /** The defining properties determine the trimmed form: any slice that has them is `Trim(s)`. */
  lemma TrimUnique(s: string, a: int, b: int)
    requires IsTrimOf(s, a, b)
    ensures Trim(s) == s[a..b]
  {
    var a', b' := TrimSlice(s);
    // the first and last non-whitespace characters bound each slice by the other
    if a < b {
      NonWhitespaceInside(s, a', b', a);
      NonWhitespaceInside(s, a', b', b - 1);
    }
    if a' < b' {
      NonWhitespaceInside(s, a, b, a');
      NonWhitespaceInside(s, a, b, b' - 1);
    }
  }

  /** Trimming an already trimmed string changes nothing. */
  lemma TrimIdempotent(s: string)
    ensures Trim(Trim(s)) == Trim(s)
  {
    var t := Trim(s);
    TrimUnique(t, 0, |t|);
  }

  /** A string trims to the empty string exactly when it is all whitespace. */
  lemma TrimEmptyIff(s: string)
    ensures Trim(s) == [] <==> AllWhitespace(s)
  {
    var a, b := TrimSlice(s);
    if AllWhitespace(s) {
      TrimUnique(s, 0, 0);
    }
  }

  /** A non-empty trimmed form has no whitespace at either end and is its own trimmed form. */
  lemma TrimmedForm(s: string)
    requires Trim(s) != []
    ensures IsTrimmedNonEmpty(Trim(s)) && Trim(Trim(s)) == Trim(s)
  {
    var a, b := TrimSlice(s);
    TrimIdempotent(s);
  }

  /** A string with no whitespace at either end is its own trimmed form. */
  lemma TrimOfTrimmed(t: string)
    requires IsTrimmedNonEmpty(t)
    ensures Trim(t) == t
  {
    TrimUnique(t, 0, |t|);
  }
}
