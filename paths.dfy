/**
 * The parts of Python's `os.path` (POSIX flavour, separator '/') that the
 * condenser relies on: `splitext`, `join`, `split`, and ASCII `str.lower`.
 */
module Paths {

  /** Index of the last occurrence of `c` in `s`, or -1 (`str.rfind`). */
  function LastIndex(s: string, c: char): (i: int)
    ensures -1 <= i < |s|
    ensures i >= 0 ==> s[i] == c
    ensures forall k :: i < k < |s| ==> s[k] != c
    decreases |s|
  {
    if s == [] then -1
    else if s[|s| - 1] == c then |s| - 1
    else LastIndex(s[..|s| - 1], c)
  }

  /** Some character of `s[lo..hi]` is not a dot. */
  predicate HasNonDot(s: string, lo: int, hi: int)
    requires 0 <= lo && hi <= |s|
  {
    exists k :: lo <= k < hi && s[k] != '.'
  }

  /**
   * `os.path.splitext`: the extension starts at the last dot of the last path
   * component, unless everything before that dot in the component is a dot.
   */
  function SplitExt(p: string): (r: (string, string))
    ensures r.0 + r.1 == p
    ensures r.1 != [] ==> r.1[0] == '.' && '/' !in r.1 && '.' !in r.1[1..]
  {
    var sepIndex := LastIndex(p, '/');
    var dotIndex := LastIndex(p, '.');
    if dotIndex > sepIndex && HasNonDot(p, sepIndex + 1, dotIndex) then
      (p[..dotIndex], p[dotIndex..])
    else
      (p, [])
  }

  /**
   * The extension is split off only after a non-dot character of the last
   * component (so `.bashrc` has none), and there is no extension exactly when
   * every dot after such a character has a separator after it.
   */
  lemma SplitExtStem(p: string)
    ensures var r := SplitExt(p);
      r.1 != [] ==> exists k :: 0 <= k < |r.0| && r.0[k] != '.' && '/' !in r.0[k..]
    ensures SplitExt(p).1 == [] <==>
      forall k, d :: 0 <= k < d < |p| && p[d] == '.' && p[k] != '.' ==>
        exists m :: k <= m < |p| && p[m] == '/'
  {
    var sepIndex := LastIndex(p, '/');
    var dotIndex := LastIndex(p, '.');
    if dotIndex > sepIndex && HasNonDot(p, sepIndex + 1, dotIndex) {
      var k :| sepIndex + 1 <= k < dotIndex && p[k] != '.';
      assert p[..dotIndex][k] == p[k];
      assert p[..dotIndex][k..] == p[k..dotIndex];
    }
  }

  /** `os.path.splitext(p)[0]` */
  function Root(p: string): string
  {
    SplitExt(p).0
  }

  /** `os.path.splitext(p)[1]` */
  function Ext(p: string): string
  {
    SplitExt(p).1
  }

  /** `os.path.join(a, b)` */
  function Join(a: string, b: string): (r: string)
    ensures |b| > 0 && b[0] == '/' ==> r == b
    ensures |r| >= |b| && r[|r| - |b|..] == b
  {
    if |b| > 0 && b[0] == '/' then b
    else if a == [] || a[|a| - 1] == '/' then a + b
    else a + "/" + b
  }

  /** `str.rstrip('/')` */
  function StripTrailingSlashes(s: string): (r: string)
    ensures r <= s
    decreases |s|
  {
    if s != [] && s[|s| - 1] == '/' then StripTrailingSlashes(s[..|s| - 1]) else s
  }

  /** `os.path.split`: the directory part and the last component. */
  function Split(p: string): (r: (string, string))
    ensures '/' !in r.1
    ensures |r.1| <= |p| && r.1 == p[|p| - |r.1|..]
  {
    var i := LastIndex(p, '/') + 1;
    var head := p[..i];
    var tail := p[i..];
    var allSlashes := forall k :: 0 <= k < |head| ==> head[k] == '/';
    (if head != [] && !allSlashes then StripTrailingSlashes(head) else head, tail)
  }

  /** `str.lower` on ASCII letters; other characters are left alone. */
  function LowerChar(c: char): char
  {
    if 'A' <= c <= 'Z' then (c as int + 32) as char else c
  }

  function Lower(s: string): (r: string)
    ensures |r| == |s|
    ensures forall k :: 0 <= k < |s| ==> r[k] == LowerChar(s[k])
  {
    seq(|s|, k requires 0 <= k < |s| => LowerChar(s[k]))
  }
}
