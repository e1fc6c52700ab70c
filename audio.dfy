/**
 * The audio side of condensing: one FLAC segment per period, written as
 * `out_{i}.flac` in the temporary directory and stopping at the first
 * ffmpeg failure (`extract_audio_parts`), and the concat list handed to
 * ffmpeg, with single quotes escaped (`concatenate_audio_parts`).
 */
module AudioParts {
  import opened Wrappers
  import opened Errors
  import opened Strings
  import opened Periods

  /** The path of segment `i`. */
  function SegmentPath(tempDir: string, i: nat): string
  {
    tempDir + "/out_" + NatToString(i) + ".flac"
  }

  /** Different segments get different paths, so no segment overwrites another. */
  lemma SegmentPathsDistinct(tempDir: string, i: nat, j: nat)
    requires i != j
    ensures SegmentPath(tempDir, i) != SegmentPath(tempDir, j)
  {
    var prefix := tempDir + "/out_";
    var a, b := NatToString(i), NatToString(j);
    if SegmentPath(tempDir, i) == SegmentPath(tempDir, j) {
      var p, q := prefix + a + ".flac", prefix + b + ".flac";
      assert |a| == |b|;
      assert a == p[|prefix|..|prefix| + |a|] == q[|prefix|..|prefix| + |b|] == b;
      NatToStringInjective(i, j);
    }
  }

  /** What `extract_audio_parts` returns: every segment path, or the error of the first failing cut. */
  function ExtractAudio(count: nat, tempDir: string, ok: nat -> bool): (r: Result<seq<string>, Error>)
    ensures r.Success? <==> forall i :: 0 <= i < count ==> ok(i)
    ensures r.Success? ==> r.value == seq(count, (i: nat) => SegmentPath(tempDir, i))
    ensures r.Failure? ==> r.error == AudioExtractionFailed
  {
    if forall i :: 0 <= i < count ==> ok(i) then Success(seq(count, (i: nat) => SegmentPath(tempDir, i)))
    else Failure(AudioExtractionFailed)
  }

  /**
   * `extract_audio_parts`: ffmpeg cuts one segment per period, in order, and
   * the first failure ends the loop; `runs` counts the cuts attempted, which
   * is one past the first failing segment when there is one.
   */
  method ExtractAudioParts(periods: seq<Period>, tempDir: string, ok: nat -> bool)
    returns (r: Result<seq<string>, Error>, runs: nat)
    ensures r == ExtractAudio(|periods|, tempDir, ok)
    ensures r.Success? ==> runs == |periods|
    ensures r.Failure? ==> 0 < runs <= |periods| && !ok(runs - 1) && forall i :: 0 <= i < runs - 1 ==> ok(i)
  {
    var outPaths := [];
    runs := 0;
    for i := 0 to |periods|
      invariant runs == i && outPaths == seq(i, (k: nat) => SegmentPath(tempDir, k))
      invariant forall k :: 0 <= k < i ==> ok(k)
    {
      var outPath := tempDir + "/out_" + NatToString(i) + ".flac";
      outPaths := outPaths + [outPath];
      runs := runs + 1;
      if !ok(i) {
        return Failure(AudioExtractionFailed), runs;
      }
    }
    r := Success(outPaths);
  }

  /** `s.replace("'", "'\''")`: every single quote closes the quoted string, adds an escaped quote and reopens it. */
  function EscapeQuotes(s: string): (r: string)
    ensures |r| >= |s|
    decreases |s|
  {
    if s == [] then []
    else (if s[0] == '\'' then "'\\''" else [s[0]]) + EscapeQuotes(s[1..])
  }

  /** Reading an escaped string back: each `'\''` is one quote. */
  function Unescape(r: string): string
    decreases |r|
  {
    if r == [] then []
    else if |r| >= 4 && r[..4] == "'\\''" then "'" + Unescape(r[4..])
    else [r[0]] + Unescape(r[1..])
  }

  /** Escaping loses nothing: reading the escaped path back gives the path. */
  lemma {:induction false} EscapeRoundTrip(s: string)
    ensures Unescape(EscapeQuotes(s)) == s
    decreases |s|
  {
    if s != [] {
      EscapeRoundTrip(s[1..]);
      var e := EscapeQuotes(s);
      if s[0] == '\'' {
        assert e[..4] == "'\\''";
        assert e[4..] == EscapeQuotes(s[1..]);
      } else {
        assert e[0] == s[0];
        assert e[1..] == EscapeQuotes(s[1..]);
      }
    }
  }

  /** The concat-list line for one segment. */
  function ConcatLine(path: string): string
  {
    "file '" + EscapeQuotes(path) + "'\n"
  }

  /** The concat list: one line per segment, in order, each naming its segment. */
  function ConcatList(outPaths: seq<string>): string
    decreases |outPaths|
  {
    if outPaths == [] then [] else ConcatLine(outPaths[0]) + ConcatList(outPaths[1..])
  }

  /** The path a concat-list line names. */
  function LinePath(line: string): string
    requires |line| >= 8
  {
    Unescape(line[6..|line| - 2])
  }

  /** Each concat-list line names exactly its segment's path. */
  lemma ConcatLineRoundTrip(path: string)
    ensures |ConcatLine(path)| >= 8 && LinePath(ConcatLine(path)) == path
  {
    var line := ConcatLine(path);
    assert line[6..|line| - 2] == EscapeQuotes(path);
    EscapeRoundTrip(path);
  }

  /** Where the first line of `s` ends: the index of its first newline, or `|s|`. */
  function LineEnd(s: string): (j: nat)
    ensures j <= |s|
    ensures forall k :: 0 <= k < j ==> s[k] != '\n'
    ensures j < |s| ==> s[j] == '\n'
    decreases |s|
  {
    if s == [] || s[0] == '\n' then 0 else 1 + LineEnd(s[1..])
  }

  /** Reading a concat list back line by line: the path each `file '...'` line names. */
  function ParseList(s: string): seq<string>
    decreases |s|
  {
    var j := LineEnd(s);
    if j == |s| || j < 7 then [] else [LinePath(s[..j + 1])] + ParseList(s[j + 1..])
  }

  /** Escaping adds no newline. */
  lemma {:induction false} EscapeKeepsNewlines(s: string)
    requires '\n' !in s
    ensures '\n' !in EscapeQuotes(s)
    decreases |s|
  {
    if s != [] {
      assert s[0] != '\n' && '\n' !in s[1..];
      EscapeKeepsNewlines(s[1..]);
    }
  }

  /** The first line of a concat list is its first segment's line, when the path has no newline. */
  lemma FirstLine(path: string, rest: string)
    requires '\n' !in path
    ensures LineEnd(ConcatLine(path) + rest) == |ConcatLine(path)| - 1
  {
    var line := ConcatLine(path);
    EscapeKeepsNewlines(path);
    var s := line + rest;
    assert line[|line| - 1] == '\n';
    forall k | 0 <= k < |line| - 1 ensures s[k] != '\n' {
      if 6 <= k < |line| - 2 {
        assert s[k] == EscapeQuotes(path)[k - 6];
      }
    }
    LineEndIs(s, |line| - 1);
  }

  /** The first newline of `s` is at `j`. */
  lemma {:induction false} LineEndIs(s: string, j: nat)
    requires j < |s| && s[j] == '\n' && forall k :: 0 <= k < j ==> s[k] != '\n'
    ensures LineEnd(s) == j
    decreases j
  {
    if j > 0 {
      LineEndIs(s[1..], j - 1);
    }
  }

  /**
   * The concat list names exactly the segments, in order: reading it back
   * line by line gives the segment paths, provided no path holds a newline
   * (a newline in the temporary directory's name would break the list).
   */
  lemma {:induction false} ConcatListRoundTrip(outPaths: seq<string>)
    requires forall k :: 0 <= k < |outPaths| ==> '\n' !in outPaths[k]
    ensures ParseList(ConcatList(outPaths)) == outPaths
    decreases |outPaths|
  {
    if outPaths != [] {
      var line, rest := ConcatLine(outPaths[0]), ConcatList(outPaths[1..]);
      var s := line + rest;
      FirstLine(outPaths[0], rest);
      ConcatLineRoundTrip(outPaths[0]);
      assert s[..|line|] == line && s[|line|..] == rest;
      ConcatListRoundTrip(outPaths[1..]);
      assert ParseList(s) == [LinePath(line)] + ParseList(rest);
    }
  }
}
