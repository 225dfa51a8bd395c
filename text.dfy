/** The string tests of .NET that the agent relies on. */
module Text {
  import opened Wrappers

  /**
   * char.IsWhiteSpace: the Unicode space, line and paragraph separators
   * (categories Zs, Zl, Zp) together with U+0009..U+000D and U+0085.
   */
  predicate IsWhiteSpace(c: char): (b: bool)
    ensures c < '\U{0080}' ==> (b <==> '\t' <= c <= '\r' || c == ' ')
  {
    || ('\t' <= c <= '\r')
    || c == ' '
    || c == '\U{0085}'
    || c == '\U{00A0}'
    || c == '\U{1680}'
    || ('\U{2000}' <= c <= '\U{200A}')
    || c == '\U{2028}'
    || c == '\U{2029}'
    || c == '\U{202F}'
    || c == '\U{205F}'
    || c == '\U{3000}'
  }

  /** string.IsNullOrWhiteSpace: null, empty, or made of white space only. */
  predicate IsNullOrWhiteSpace(s: Option<string>): (b: bool)
    ensures s == None || s == Some("") ==> b
    ensures s.Some? ==> (b <==> forall c | c in s.value :: IsWhiteSpace(c))
  {
    match s
    case None => true
    case Some(t) => forall i :: 0 <= i < |t| ==> IsWhiteSpace(t[i])
  }
}
