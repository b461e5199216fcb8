/**
 * The two string queries the build script relies on: `Char.IsWhiteSpace`
 * and `String.IsNullOrWhiteSpace` of the .NET base library.
 */
module Text {
  import opened Results

  /**
   * `Char.IsWhiteSpace`: the Unicode space, line and paragraph separators
   * (categories Zs, Zl, Zp) together with U+0009..U+000D and U+0085.
   */
  predicate IsWhiteSpace(c: char) {
    || ('\U{0009}' <= c <= '\U{000D}')
    || c == '\U{0020}'
    || c == '\U{0085}'
    || c == '\U{00A0}'
    || c == '\U{1680}'
    || ('\U{2000}' <= c <= '\U{200A}')
    || c == '\U{2028}'
    || c == '\U{2029}'
    || c == '\U{202F}'
    || c == '\U{205F}'
    || c == '\U{3000}'
  }

  /** Reference meaning of `String.IsNullOrWhiteSpace`: null, or every character is white space. */
  predicate IsBlank(s: Option<string>) {
    s.None? || forall i :: 0 <= i < |s.value| ==> IsWhiteSpace(s.value[i])
  }

  /**
   * `String.IsNullOrWhiteSpace` as the library computes it: a scan for the
   * first non-white character. The model of the build script states its
   * guards with `IsBlank`; this method shows that the library's scan decides
   * exactly that predicate.
   */
  method IsNullOrWhiteSpace(s: Option<string>) returns (blank: bool)
    ensures blank <==> IsBlank(s)
    ensures !blank ==> exists i :: 0 <= i < |s.value| && !IsWhiteSpace(s.value[i])
  {
    if s.None? {
      return true;
    }
    var t := s.value;
    var i := 0;
    while i < |t|
      invariant 0 <= i <= |t|
      invariant forall j :: 0 <= j < i ==> IsWhiteSpace(t[j])
    {
      if !IsWhiteSpace(t[i]) {
        return false;
      }
      i := i + 1;
    }
    return true;
  }

  /** `t` is a suffix of `s`. */
  predicate EndsWith(s: string, t: string) {
    |t| <= |s| && s[|s| - |t|..] == t
  }

  /** A concatenation of three parts ends with its last two. */
  lemma ConcatEndsWith(x: string, y: string, z: string)
    ensures EndsWith(x + y + z, y + z)
  {
    assert (x + y + z)[|x|..] == y + z;
  }

  /** A string that differs from `p` at a position both share does not start with `p`. */
  lemma DiffersAt(p: string, a: string, i: nat)
    requires i < |p| && i < |a| && p[i] != a[i]
    ensures !(p <= a)
  {
  }

  /** A concatenation starts with its left operand. */
  lemma PrefixOfConcat(x: string, y: string)
    ensures x <= x + y
  {
    assert (x + y)[..|x|] == x;
  }
}
