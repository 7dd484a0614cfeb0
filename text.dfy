/** The bits of string handling the glTF loaders' error messages need:
    decimal formatting of an index (`{}` on a `usize`), substring search
    (`str::contains`) and joining a relative path onto a base directory
    (`Path::join` on Unix paths). */
module Text {

  /** The decimal digit of `d`. */
  function Digit(d: nat): (c: char)
    requires d < 10
    ensures '0' <= c <= '9'
  {
    ['0', '1', '2', '3', '4', '5', '6', '7', '8', '9'][d]
  }

  /** `format!("{}", n)`. */
  function NatToString(n: nat): (s: string)
    ensures |s| >= 1
    ensures forall i :: 0 <= i < |s| ==> '0' <= s[i] <= '9'
    decreases n
  {
    if n < 10 then [Digit(n)] else NatToString(n / 10) + [Digit(n % 10)]
  }

  /** `s.contains(sub)`. */
  predicate Contains(s: string, sub: string)
  {
    exists k :: 0 <= k <= |s| && sub <= s[k..]
  }

  /** A string made of `pre`, `sub` and `post` contains `sub`. */
  lemma {:induction false} ContainsMiddle(pre: string, sub: string, post: string)
    ensures Contains(pre + sub + post, sub)
  {
    var s := pre + sub + post;
    assert s[|pre|..] == sub + post;
  }

  /** A string made of `pre`, `mid` and `post` contains every prefix of `mid`. */
  lemma {:induction false} ContainsWithin(pre: string, mid: string, post: string, sub: string)
    requires sub <= mid
    ensures Contains(pre + mid + post, sub)
  {
    var s := pre + mid + post;
    assert s[|pre|..] == mid + post;
    assert sub <= mid + post by {
      assert forall k :: 0 <= k < |sub| ==> (mid + post)[k] == mid[k];
    }
  }

  /** A string contains each of its prefixes. */
  lemma {:induction false} ContainsPrefix(s: string, sub: string)
    requires sub <= s
    ensures Contains(s, sub)
  {
    assert s[0..] == s;
  }

  /** Text added after a string keeps what it contains. */
  lemma {:induction false} ContainsExtended(s: string, t: string, sub: string)
    requires Contains(s, sub)
    ensures Contains(s + t, sub)
  {
    var k :| 0 <= k <= |s| && sub <= s[k..];
    assert (s + t)[k..] == s[k..] + t;
  }

  /** Text added before a string keeps what it contains. */
  lemma {:induction false} ContainsPrefixed(t: string, s: string, sub: string)
    requires Contains(s, sub)
    ensures Contains(t + s, sub)
  {
    var k :| 0 <= k <= |s| && sub <= s[k..];
    assert (t + s)[|t| + k..] == s[k..];
  }

  /** `base.join(rel)` for Unix paths: an absolute `rel` replaces the base,
      otherwise one separator is put between them unless the base already ends in one. */
  function JoinPath(base: string, rel: string): (p: string)
    ensures |rel| > 0 && rel[0] == '/' ==> p == rel
    ensures (|rel| == 0 || rel[0] != '/') && (base == [] || base[|base| - 1] == '/') ==> p == base + rel
    ensures (|rel| == 0 || rel[0] != '/') && base != [] && base[|base| - 1] != '/' ==> p == base + "/" + rel
  {
    if |rel| > 0 && rel[0] == '/' then rel
    else if base == [] || base[|base| - 1] == '/' then base + rel
    else base + "/" + rel
  }
}
