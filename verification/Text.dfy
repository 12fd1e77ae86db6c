/** Texts: `str.strip` of ASCII texts, and parts joined by a separator. */
module Text {
  /** The ASCII characters that `str.isspace` accepts. */
  predicate Blankspace(c: char) { c == ' ' || '\t' <= c <= '\r' || '\U{1C}' <= c <= '\U{1F}' }

  function Strip(s: string): string {
    if s != "" && Blankspace(s[0]) then Strip(s[1..])
    else if s != "" && Blankspace(s[|s| - 1]) then Strip(s[..|s| - 1])
    else s
  }

  predicate Without(c: char, s: string) { c !in s }

  predicate NoBar(s: string) { Without('|', s) }

  /** The first separator tells where the first part ends. */
  lemma SplitAtSeparator(c: char, a: string, x: string, b: string, y: string)
    requires Without(c, a) && Without(c, b) && a + [c] + x == b + [c] + y
    ensures a == b && x == y
  {
    var s, t := a + [c] + x, b + [c] + y;
    assert s[|a|] == c && t[|b|] == c;
    assert forall k :: 0 <= k < |a| ==> s[k] == a[k];
    assert forall k :: 0 <= k < |b| ==> t[k] == b[k];
    assert |a| == |b|;
    assert a == s[..|a|] && b == t[..|b|] && x == s[|a| + 1..] && y == t[|b| + 1..];
  }

  /** Two texts that differ in one part share a join: the separator can move into the next part. */
  lemma SeparatorMoves(c: char, a: string, b: string, d: string)
    ensures (a + [c] + b) + [c] + d == a + [c] + (b + [c] + d)
  {
  }
}
