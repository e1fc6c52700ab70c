/**
 * The cue text filter: markup tags are removed with the regular expression
 * `<[^<]+?>` (leftmost matches, non-overlapping, each the shortest possible),
 * bracketed annotations may be dropped, and configured characters deleted.
 * An empty result means the cue carries no speech.
 */
module CueFilter {
  import opened Wrappers
  import opened Config

  /** `s[..n]` is one match of `<[^<]+?>`: '<', one or more non-'<', then '>'. */
  ghost predicate IsTag(s: string, n: int)
  {
    3 <= n <= |s| && s[0] == '<' && s[n - 1] == '>' &&
    forall k :: 1 <= k < n - 1 ==> s[k] != '<'
  }

  /**
   * Scans for the closing '>' of a tag whose body so far is `s[1..k]`:
   * the lazy quantifier stops at the first '>' and fails at a '<'.
   */
  function CloseAt(s: string, k: nat): (r: Option<nat>)
    requires 2 <= k <= |s| && s[0] == '<'
    requires forall m :: 1 <= m < k ==> s[m] != '<'
    ensures r.Some? ==> IsTag(s, r.value) && forall n :: k < n < r.value ==> !IsTag(s, n)
    ensures r.None? ==> forall n :: k < n ==> !IsTag(s, n)
    decreases |s| - k
  {
    if k >= |s| then None
    else if s[k] == '>' then Some(k + 1)
    else if s[k] == '<' then None
    else CloseAt(s, k + 1)
  }

  /** The length of the match of `<[^<]+?>` at the start of `s`, if any. */
  function TagAt(s: string): (r: Option<nat>)
    ensures r.Some? ==> IsTag(s, r.value) && forall n :: n < r.value ==> !IsTag(s, n)
    ensures r.None? ==> forall n :: !IsTag(s, n)
  {
    if |s| >= 2 && s[0] == '<' && s[1] != '<' then CloseAt(s, 2) else None
  }

  /** `a` can be obtained from `b` by deleting characters. */
  ghost predicate IsSubsequence(a: string, b: string)
    decreases |b|
  {
    if a == [] then true
    else if b == [] then false
    else if a[0] == b[0] then IsSubsequence(a[1..], b[1..])
    else IsSubsequence(a, b[1..])
  }

  lemma {:induction false} SubsequenceDropHead(a: string, b: string)
    requires a != [] && IsSubsequence(a, b)
    ensures IsSubsequence(a[1..], b)
    decreases |b|, 1
  {
    if a[0] == b[0] {
      SubsequenceOfTail(a[1..], b);
    } else {
      SubsequenceDropHead(a, b[1..]);
      SubsequenceOfTail(a[1..], b);
    }
  }

  lemma {:induction false} SubsequenceOfTail(a: string, b: string)
    requires b != [] && IsSubsequence(a, b[1..])
    ensures IsSubsequence(a, b)
    decreases |b|, 0
  {
    if a != [] && a[0] == b[0] {
      SubsequenceDropHead(a, b[1..]);
    }
  }

  lemma {:induction false} SubsequenceReflexive(a: string)
    ensures IsSubsequence(a, a)
    decreases |a|
  {
    if a != [] {
      SubsequenceReflexive(a[1..]);
    }
  }

  lemma {:induction false} SubsequenceOfSuffix(a: string, b: string, n: nat)
    requires n <= |b| && IsSubsequence(a, b[n..])
    ensures IsSubsequence(a, b)
    decreases n
  {
    if n > 0 {
      assert b[1..][n - 1..] == b[n..];
      SubsequenceOfSuffix(a, b[1..], n - 1);
      SubsequenceOfTail(a, b);
    }
  }

  /** `re.sub("<[^<]+?>", "", s)` */
  function StripTags(s: string): (r: string)
    ensures IsSubsequence(r, s)
    ensures '<' !in s ==> r == s
    decreases |s|
  {
    if s == [] then []
    else match TagAt(s)
      case Some(n) =>
        var r := StripTags(s[n..]);
        SubsequenceOfSuffix(r, s, n);
        r
      case None =>
        var rest := StripTags(s[1..]);
        assert s == [s[0]] + s[1..];
        var r := [s[0]] + rest;
        assert r[1..] == rest;
        r
  }

  /** The first and last characters form one of the pairs (), （）, [] or {}. */
  predicate Wrapped(t: string)
  {
    |t| > 0 &&
    var first, last := t[0], t[|t| - 1];
    (first == '(' && last == ')') ||
    (first == '\U{FF08}' && last == '\U{FF09}') ||
    (first == '[' && last == ']') ||
    (first == '{' && last == '}')
  }

  /** `t.translate(str.maketrans("", "", chars))`: every character of `chars` is deleted. */
  function DeleteChars(t: string, chars: string): (r: string)
    ensures IsSubsequence(r, t)
    ensures forall c :: c in chars ==> c !in r
    ensures forall c :: c !in chars ==> multiset(r)[c] == multiset(t)[c]
    decreases |t|
  {
    if t == [] then []
    else
      var rest := DeleteChars(t[1..], chars);
      assert t == [t[0]] + t[1..];
      if t[0] in chars then
        SubsequenceOfTail(rest, t);
        rest
      else
        var r := [t[0]] + rest;
        assert r[1..] == rest;
        r
  }

  /** `filter_text`, with the settings taken from `cfg`. */
  function FilterText(cfg: Config, text: string): (r: string)
    ensures StripTags(text) == [] ==> r == []
    ensures cfg.filterParentheses && Wrapped(StripTags(text)) ==> r == []
    ensures StripTags(text) != [] && !(cfg.filterParentheses && Wrapped(StripTags(text))) ==>
      && IsSubsequence(r, StripTags(text))
      && (forall c :: c in cfg.filteredChars ==> c !in r)
      && (forall c :: c !in cfg.filteredChars ==> multiset(r)[c] == multiset(StripTags(text))[c])
  {
    var t := StripTags(text);
    if |t| == 0 then ""
    else if cfg.filterParentheses && Wrapped(t) then ""
    else if cfg.filteredChars != [] then DeleteChars(t, cfg.filteredChars)
    else
      SubsequenceReflexive(t);
      t
  }

  /** The filter runs only when some filtering setting is on. */
  predicate Filtering(cfg: Config)
  {
    cfg.filteredChars != [] || cfg.filterParentheses
  }

  /** The text a cue is judged by when periods are extracted. */
  function CueText(cfg: Config, text: string): (r: string)
    ensures !Filtering(cfg) ==> r == text
    ensures Filtering(cfg) ==> r == FilterText(cfg, text)
  {
    if Filtering(cfg) then FilterText(cfg, text) else text
  }

  /** A bare "<>" is not a tag: the pattern needs a character between the brackets. */
  lemma EmptyBracketsKept()
    ensures StripTags("<>") == "<>"
  {
    assert TagAt("<>") == None;
    assert TagAt(">") == None;
  }

  /** A single pass: removing the inner tag of "<a<b>>" leaves the tag "<a>". */
  lemma SinglePass()
    ensures StripTags("<a<b>>") == "<a>"
  {
    var s := "<a<b>>";
    assert TagAt(s) == None;
    assert s[1..] == "a<b>>";
    assert TagAt("a<b>>") == None;
    assert "a<b>>"[1..] == "<b>>";
    assert TagAt("<b>>") == Some(3);
    assert "<b>>"[3..] == ">";
    assert TagAt(">") == None;
  }

  /** Text without '<' passes through tag stripping unchanged, whatever follows it. */
  lemma {:induction false} PlainPrefix(x: string, y: string)
    requires '<' !in x
    ensures StripTags(x + y) == x + StripTags(y)
    decreases |x|
  {
    if x != [] {
      var s := x + y;
      assert s[0] == x[0] && s[0] != '<';
      assert TagAt(s) == None;
      assert s[1..] == x[1..] + y;
      PlainPrefix(x[1..], y);
      assert StripTags(s) == [s[0]] + StripTags(s[1..]);
      assert x == [x[0]] + x[1..];
    } else {
      assert x + y == y;
    }
  }

  /** With tags removed, "<i>(bang)</i>" is a bracketed annotation. */
  lemma AnnotationDropped(cfg: Config)
    requires cfg.filterParentheses
    ensures CueText(cfg, "<i>(bang)</i>") == ""
  {
    var s := "<i>(bang)</i>";
    assert TagAt(s) == Some(3);
    assert s[3..] == "(bang)" + "</i>";
    assert TagAt("</i>") == Some(4);
    assert StripTags("</i>") == "";
    PlainPrefix("(bang)", "</i>");
    assert StripTags(s) == "(bang)";
  }
}
