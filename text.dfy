/** The Python string operations the workflow relies on: `str.strip()`, `sep.join(xs)`
    and the slice `xs[-3:]`. */
module Text {

  /** Python's `str.isspace` on one character: the code points that `str.strip()` with no
      argument removes (ASCII controls 9-13 and 28-31, space, NEL, NBSP and the Unicode
      space separators). */
  predicate IsSpace(c: char)
  {
    var n := c as int;
    (0x09 <= n <= 0x0D) || (0x1C <= n <= 0x20) || n == 0x85 || n == 0xA0 || n == 0x1680
    || (0x2000 <= n <= 0x200A) || n == 0x2028 || n == 0x2029 || n == 0x202F
    || n == 0x205F || n == 0x3000
  }

  predicate AllSpace(s: string)
  {
    forall k :: 0 <= k < |s| ==> IsSpace(s[k])
  }

  /** No whitespace at either end. */
  predicate IsStripped(s: string)
  {
    s == [] || (!IsSpace(s[0]) && !IsSpace(s[|s| - 1]))
  }

  /** Drops the leading whitespace: what is dropped is all whitespace, what is kept is a
      suffix of the input that does not start with whitespace. */
  function TrimStart(s: string): (r: string)
    ensures |r| <= |s| && r == s[|s| - |r|..]
    ensures AllSpace(s[..|s| - |r|])
    ensures r == [] || !IsSpace(r[0])
  {
    if s == [] || !IsSpace(s[0]) then s else TrimStart(s[1..])
  }

  /** Drops the trailing whitespace: the mirror image of TrimStart. */
  function TrimEnd(s: string): (r: string)
    ensures |r| <= |s| && r == s[..|r|]
    ensures AllSpace(s[|r|..])
    ensures r == [] || !IsSpace(r[|r| - 1])
  {
    if s == [] || !IsSpace(s[|s| - 1]) then s else TrimEnd(s[..|s| - 1])
  }

  /** Python's `s.strip()`: the slice of `s` left once the whitespace at both ends is cut
      off, so with no whitespace at either end; empty exactly when `s` is all whitespace;
      `s` itself when `s` is already stripped. */
  function Strip(s: string): (r: string)
    ensures IsStripped(r)
    ensures r == [] <==> AllSpace(s)
    ensures IsStripped(s) ==> r == s
    ensures exists i, j :: 0 <= i <= j <= |s| && r == s[i..j] && AllSpace(s[..i]) && AllSpace(s[j..])
  {
    var t := TrimStart(s);
    var r := TrimEnd(t);
    TrimsCutOnlySpace(s, t, r);
    EmptyTrimIsAllSpace(s, t, r);
    r
  }

  /** What the two trims cut off is whitespace at the two ends of `s`. */
  lemma TrimsCutOnlySpace(s: string, t: string, r: string)
    requires |t| <= |s| && t == s[|s| - |t|..] && AllSpace(s[..|s| - |t|])
    requires |r| <= |t| && r == t[..|r|] && AllSpace(t[|r|..])
    ensures exists i, j :: 0 <= i <= j <= |s| && r == s[i..j] && AllSpace(s[..i]) && AllSpace(s[j..])
  {
    var i := |s| - |t|;
    var j := i + |r|;
    assert t == s[i..] && r == t[..|r|];
    assert s[i..j] == r;
    assert s[j..] == t[|r|..];
  }

  /** Strip's result is empty exactly when the input is all whitespace. */
  lemma EmptyTrimIsAllSpace(s: string, t: string, r: string)
    requires t == TrimStart(s) && r == TrimEnd(t)
    ensures r == [] <==> AllSpace(s)
  {
    if r == [] {
      EmptyTrimMeansAllSpace(s, t);
    } else if AllSpace(s) {
      AllSpaceTrimsAway(s, t);
    }
  }

  /** When nothing is left after both trims, every character of `s` was whitespace. */
  lemma EmptyTrimMeansAllSpace(s: string, t: string)
    requires t == TrimStart(s) && TrimEnd(t) == []
    ensures AllSpace(s)
  {
    assert t[0..] == t;
    assert t == [];
    assert s[..|s| - |t|] == s;
  }

  /** An all-whitespace string loses everything to the first trim. */
  lemma AllSpaceTrimsAway(s: string, t: string)
    requires t == TrimStart(s) && AllSpace(s)
    ensures t == []
  {
  }

  /** `sep.join(xs)`: the strings of `xs` with `sep` between each two neighbours. With a
      non-empty separator the result is empty exactly when there is no string, or a single
      empty one; with the empty separator, exactly when every string is empty. */
  function Join(sep: string, xs: seq<string>): (r: string)
    ensures sep != [] ==> (r == [] <==> (xs == [] || (|xs| == 1 && xs[0] == [])))
    ensures sep == [] ==> (r == [] <==> forall k :: 0 <= k < |xs| ==> xs[k] == [])
  {
    if xs == [] then []
    else if |xs| == 1 then xs[0]
    else xs[0] + sep + Join(sep, xs[1..])
  }

  /** The slice `xs[-3:]`: the last three elements, or all of them when there are fewer. */
  function LastThree<T>(xs: seq<T>): (r: seq<T>)
    ensures |r| == if |xs| < 3 then |xs| else 3
    ensures r == xs[|xs| - |r|..]
  {
    if |xs| <= 3 then xs else xs[|xs| - 3..]
  }
}
