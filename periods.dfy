/**
 * Turning subtitle cues into the spans of audio to keep (`extract_periods`).
 * Each surviving cue is padded on both sides, the first start is clamped at 0,
 * the padding is taken back off the last end, and consecutive periods are merged
 * left to right whenever the next start is at most the running end.  The running
 * end is replaced by the absorbed period's end (not the larger of the two).
 */
module Periods {
  import opened Wrappers
  import opened Errors
  import opened Config
  import opened CueFilter

  /** A parsed subtitle cue; times are millisecond ordinals. */
  datatype Cue = Cue(start: int, end: int, text: string)

  /** A span of the source timeline to keep, in milliseconds. */
  datatype Period = Period(start: int, end: int)

  /** The cues with their text as the filter leaves it (untouched when no filter is set). */
  function FilterCues(cfg: Config, subs: seq<Cue>): (r: seq<Cue>)
    ensures |r| == |subs|
    ensures forall k :: 0 <= k < |subs| ==>
      r[k].start == subs[k].start && r[k].end == subs[k].end &&
      r[k].text == CueText(cfg, subs[k].text)
  {
    seq(|subs|, k requires 0 <= k < |subs| => subs[k].(text := CueText(cfg, subs[k].text)))
  }

  predicate SortedByStart(cues: seq<Cue>)
  {
    forall a, b :: 0 <= a < b < |cues| ==> cues[a].start <= cues[b].start
  }

  /** The cues whose text is not empty, in their original order. */
  function Survivors(cues: seq<Cue>): (r: seq<Cue>)
    ensures |r| <= |cues|
    decreases |cues|
  {
    if cues == [] then []
    else if cues[0].text != [] then [cues[0]] + Survivors(cues[1..])
    else Survivors(cues[1..])
  }

  /** Exactly the cues with text survive. */
  lemma {:induction false} SurvivorsExactly(cues: seq<Cue>)
    ensures forall c :: c in Survivors(cues) <==> c in cues && c.text != []
    decreases |cues|
  {
    if cues != [] {
      SurvivorsExactly(cues[1..]);
      assert cues == [cues[0]] + cues[1..];
    }
  }

  /** Dropping cues keeps an ordering by start. */
  lemma {:induction false} SurvivorsSorted(cues: seq<Cue>)
    requires SortedByStart(cues)
    ensures SortedByStart(Survivors(cues))
    decreases |cues|
  {
    if cues != [] {
      var tail := cues[1..];
      assert SortedByStart(tail) by {
        forall a, b | 0 <= a < b < |tail| ensures tail[a].start <= tail[b].start {
          assert tail[a] == cues[a + 1] && tail[b] == cues[b + 1];
        }
      }
      SurvivorsSorted(tail);
      if cues[0].text != [] {
        var rest := Survivors(tail);
        SurvivorsExactly(tail);
        forall c | c in rest ensures cues[0].start <= c.start {
          var m :| 0 <= m < |tail| && tail[m] == c;
          assert tail[m] == cues[m + 1];
        }
        SortedCons(cues[0], rest);
      }
    }
  }

  /** A cue starting no later than every cue of a sorted list can go in front of it. */
  lemma SortedCons(c: Cue, rest: seq<Cue>)
    requires SortedByStart(rest) && forall d :: d in rest ==> c.start <= d.start
    ensures SortedByStart([c] + rest)
  {
    var r := [c] + rest;
    forall a, b | 0 <= a < b < |r| ensures r[a].start <= r[b].start {
      assert r[b] == rest[b - 1];
      if a > 0 {
        assert r[a] == rest[a - 1];
      }
    }
  }

  /** Exactly the cues with text survive, and an ordering by start is kept. */
  lemma SurvivorsProperties(cues: seq<Cue>)
    ensures forall c :: c in Survivors(cues) ==> c in cues && c.text != []
    ensures forall c :: c in cues && c.text != [] ==> c in Survivors(cues)
    ensures SortedByStart(cues) ==> SortedByStart(Survivors(cues))
  {
    SurvivorsExactly(cues);
    if SortedByStart(cues) {
      SurvivorsSorted(cues);
    }
  }

  /** `[start - padding, end + padding]` for one cue. */
  function Pad(c: Cue, padding: int): Period
  {
    Period(c.start - padding, c.end + padding)
  }

  /** One padded period per surviving cue. */
  function Candidates(cues: seq<Cue>, padding: int): (ps: seq<Period>)
    ensures |ps| == |Survivors(cues)|
    ensures forall k :: 0 <= k < |ps| ==> ps[k] == Pad(Survivors(cues)[k], padding)
  {
    var sv := Survivors(cues);
    seq(|sv|, k requires 0 <= k < |sv| => Pad(sv[k], padding))
  }

  /** The first start is clamped at 0 and the padding is taken off the last end. */
  function Adjust(ps: seq<Period>, padding: int): (r: seq<Period>)
    requires |ps| > 0
    ensures |r| == |ps|
    ensures r[0].start == if ps[0].start < 0 then 0 else ps[0].start
    ensures r[|r| - 1].end == ps[|ps| - 1].end - padding
    ensures |ps| > 1 ==> r[0].end == ps[0].end && r[|r| - 1].start == ps[|ps| - 1].start
    ensures forall k :: 0 < k < |ps| - 1 ==> r[k] == ps[k]
  {
    var first := if ps[0].start < 0 then ps[0].(start := 0) else ps[0];
    var clamped := ps[0 := first];
    var last := clamped[|ps| - 1];
    clamped[|ps| - 1 := last.(end := last.end - padding)]
  }

  /**
   * The index of the last period absorbed by the run that has absorbed up to
   * `j`: the running end is then `ps[j].end`, and the next period joins when
   * its start is at most that end.
   */
  function RunLast(ps: seq<Period>, j: nat): (l: nat)
    requires j < |ps|
    ensures j <= l < |ps|
    ensures forall m :: j < m <= l ==> !GapBefore(ps, m)
    ensures l + 1 < |ps| ==> GapBefore(ps, l + 1)
    decreases |ps| - j
  {
    if j + 1 < |ps| && ps[j].end >= ps[j + 1].start then RunLast(ps, j + 1) else j
  }

  /** The merged periods of the runs starting at `i`. */
  function MergeFrom(ps: seq<Period>, i: nat): seq<Period>
    decreases |ps| - i
  {
    if i >= |ps| then []
    else
      var l := RunLast(ps, i);
      [Period(ps[i].start, ps[l].end)] + MergeFrom(ps, l + 1)
  }

  function Merge(ps: seq<Period>): seq<Period>
  {
    MergeFrom(ps, 0)
  }

  /** The index of the first period of each run starting at `i`: increasing indices, the first being `i`. */
  function RunStarts(ps: seq<Period>, i: nat): (rs: seq<nat>)
    ensures i <= |ps| ==> |rs| <= |ps| - i
    ensures i < |ps| ==> |rs| >= 1 && rs[0] == i
    ensures forall k :: 0 <= k < |rs| ==> i <= rs[k] < |ps|
    ensures forall a, b :: 0 <= a < b < |rs| ==> rs[a] < rs[b]
    decreases |ps| - i
  {
    if i >= |ps| then [] else [i] + RunStarts(ps, RunLast(ps, i) + 1)
  }

  /** Where run `k` of `starts` stops: the next run's first period, or the end. */
  function RunEnd(starts: seq<nat>, k: nat, n: nat): nat
    requires k < |starts|
  {
    if k + 1 < |starts| then starts[k + 1] else n
  }

  /** Period `j` starts strictly after period `j - 1` ends (so it opens a new merged period). */
  predicate GapBefore(ps: seq<Period>, j: nat)
    requires 0 < j < |ps|
  {
    ps[j].start > ps[j - 1].end
  }

  /** Period `j`, after `i`, opens a run exactly when its start exceeds the end before it. */
  lemma {:induction false} OpensRun(ps: seq<Period>, i: nat, j: nat)
    requires i < j < |ps|
    ensures j in RunStarts(ps, i) <==> GapBefore(ps, j)
    decreases |ps| - i
  {
    var l := RunLast(ps, i);
    var rest := RunStarts(ps, l + 1);
    assert RunStarts(ps, i) == [i] + rest;
    if j <= l {
      NotInLaterRuns(ps, l + 1, j);
    } else if j == l + 1 {
      assert rest[0] == j;
    } else {
      OpensRun(ps, l + 1, j);
    }
  }

  /** A period after `i` opens a run exactly when its start exceeds the end before it. */
  lemma RunStartsAreOpenings(ps: seq<Period>, i: nat)
    requires i <= |ps|
    ensures forall j :: i < j < |ps| ==> (j in RunStarts(ps, i) <==> GapBefore(ps, j))
  {
    forall j | i < j < |ps| ensures j in RunStarts(ps, i) <==> GapBefore(ps, j) {
      OpensRun(ps, i, j);
    }
  }

  /** The runs from `i` on start at `i` or later. */
  lemma NotInLaterRuns(ps: seq<Period>, i: nat, j: nat)
    requires j < i
    ensures j !in RunStarts(ps, i)
  {
  }

  /** One merged period per run. */
  lemma {:induction false} MergeCount(ps: seq<Period>, i: nat)
    ensures |MergeFrom(ps, i)| == |RunStarts(ps, i)|
    decreases |ps| - i
  {
    if i < |ps| {
      MergeCount(ps, RunLast(ps, i) + 1);
    }
  }

  /** Merged period `k` from `i` on spans from run `k`'s first start to its last end. */
  lemma {:induction false} SpanOfRun(ps: seq<Period>, i: nat, k: nat)
    requires k < |RunStarts(ps, i)|
    ensures |MergeFrom(ps, i)| == |RunStarts(ps, i)|
    ensures MergeFrom(ps, i)[k] == Period(ps[RunStarts(ps, i)[k]].start, ps[RunEnd(RunStarts(ps, i), k, |ps|) - 1].end)
    decreases |ps| - i
  {
    MergeCount(ps, i);
    var l := RunLast(ps, i);
    var rs, rest := RunStarts(ps, i), RunStarts(ps, l + 1);
    var ms, mrest := MergeFrom(ps, i), MergeFrom(ps, l + 1);
    assert rs == [i] + rest && ms == [Period(ps[i].start, ps[l].end)] + mrest;
    if k == 0 {
      assert RunEnd(rs, 0, |ps|) == l + 1;
    } else {
      SpanOfRun(ps, l + 1, k - 1);
      assert rs[k] == rest[k - 1] && ms[k] == mrest[k - 1];
      assert RunEnd(rs, k, |ps|) == RunEnd(rest, k - 1, |ps|);
    }
  }

  /** Each merged period spans from its run's first start to its run's last end. */
  lemma MergedSpansRun(ps: seq<Period>, i: nat)
    ensures |MergeFrom(ps, i)| == |RunStarts(ps, i)|
    ensures forall k :: 0 <= k < |RunStarts(ps, i)| ==>
        MergeFrom(ps, i)[k] ==
          Period(ps[RunStarts(ps, i)[k]].start, ps[RunEnd(RunStarts(ps, i), k, |ps|) - 1].end)
  {
    MergeCount(ps, i);
    forall k | 0 <= k < |RunStarts(ps, i)|
      ensures MergeFrom(ps, i)[k] == Period(ps[RunStarts(ps, i)[k]].start, ps[RunEnd(RunStarts(ps, i), k, |ps|) - 1].end)
    {
      SpanOfRun(ps, i, k);
    }
  }

  /**
   * The merge as a whole: between 1 and |ps| merged periods, one per run; the
   * runs are consecutive blocks that cover every period once, a new run opening
   * exactly where a start exceeds the end before it, and each merged period
   * spans from the first start of its run to the end of the run's last period.
   */
  lemma MergeStructure(ps: seq<Period>)
    requires |ps| > 0
    ensures var ms, rs := Merge(ps), RunStarts(ps, 0);
      && 1 <= |ms| == |rs| <= |ps|
      && rs[0] == 0
      && (forall j :: 0 < j < |ps| ==> (j in rs <==> GapBefore(ps, j)))
      && (forall k :: 0 <= k < |ms| ==>
            ms[k] == Period(ps[rs[k]].start, ps[RunEnd(rs, k, |ps|) - 1].end))
  {
    RunStartsAreOpenings(ps, 0);
    MergedSpansRun(ps, 0);
  }

  /**
   * The merged periods from `i` on: the first starts where period `i` starts,
   * the last ends where the last period ends, and each starts strictly after
   * the previous one ends.
   */
  lemma {:induction false} MergedEndsAndGaps(ps: seq<Period>, i: nat)
    requires i < |ps|
    ensures var ms := MergeFrom(ps, i);
      && |ms| > 0
      && ms[0].start == ps[i].start
      && ms[|ms| - 1].end == ps[|ps| - 1].end
      && (forall k :: 0 < k < |ms| ==> GapBefore(ms, k))
    decreases |ps| - i
  {
    var l := RunLast(ps, i);
    var ms := MergeFrom(ps, i);
    if l + 1 < |ps| {
      MergedEndsAndGaps(ps, l + 1);
      var rest := MergeFrom(ps, l + 1);
      assert ms == [Period(ps[i].start, ps[l].end)] + rest;
      forall k | 0 < k < |ms| ensures GapBefore(ms, k) {
        if k > 1 {
          assert GapBefore(rest, k - 1);
        }
      }
    }
  }

  /** `extract_periods` on an already parsed subtitle file. */
  function PeriodsOf(cfg: Config, subs: seq<Cue>): Result<seq<Period>, Error>
  {
    if |subs| == 0 then Failure(EmptySubtitleFile)
    else
      var ps := Candidates(FilterCues(cfg, subs), cfg.padding);
      if |ps| == 0 then Failure(NoSpeechCue)
      else Success(Merge(Adjust(ps, cfg.padding)))
  }

  /** No period in `(i, l]` opens a new run. */
  predicate NoGapIn(ps: seq<Period>, i: nat, l: nat)
    requires i <= l < |ps|
  {
    forall m :: i < m <= l ==> !GapBefore(ps, m)
  }

  /** A run ends at `l` exactly when nothing in `(i, l]` opens a run and `l + 1` does (or is past the end). */
  lemma {:induction false} RunLastIs(ps: seq<Period>, i: nat, l: nat)
    requires i <= l < |ps| && NoGapIn(ps, i, l)
    requires l + 1 < |ps| ==> GapBefore(ps, l + 1)
    ensures RunLast(ps, i) == l
    decreases l - i
  {
    if i < l {
      assert !GapBefore(ps, i + 1);
      RunLastIs(ps, i + 1, l);
    }
  }

  /** Such a block `[i, l]` is the first merged period from `i`. */
  lemma {:induction false} MergeFromStep(ps: seq<Period>, i: nat, l: nat)
    requires i <= l < |ps| && NoGapIn(ps, i, l)
    requires l + 1 < |ps| ==> GapBefore(ps, l + 1)
    ensures MergeFrom(ps, i) == [Period(ps[i].start, ps[l].end)] + MergeFrom(ps, l + 1)
  {
    RunLastIs(ps, i, l);
    var r := RunLast(ps, i);
    assert MergeFrom(ps, i) == [Period(ps[i].start, ps[r].end)] + MergeFrom(ps, r + 1);
  }

  /**
   * The inner `for j` loop of `extract_periods`: period `i` absorbs the
   * periods after it, in place, while each starts no later than its running
   * end; `expanded` counts the absorbed periods.  Only `periods[i]` changes.
   */
  method AbsorbRun(periods: array<Period>, i: nat, ghost ps: seq<Period>) returns (expanded: nat)
    requires i < periods.Length == |ps|
    requires forall k :: i <= k < |ps| ==> periods[k] == ps[k]
    modifies periods
    ensures i + expanded < |ps| && NoGapIn(ps, i, i + expanded)
    ensures i + expanded + 1 < |ps| ==> GapBefore(ps, i + expanded + 1)
    ensures periods[i] == Period(ps[i].start, ps[i + expanded].end)
    ensures forall k :: i < k < |ps| ==> periods[k] == ps[k]
    ensures forall k :: 0 <= k < i ==> periods[k] == old(periods[k])
  {
    expanded := 0;
    for j := i + 1 to periods.Length
      invariant expanded == j - i - 1
      invariant NoGapIn(ps, i, j - 1)
      invariant periods[i] == Period(ps[i].start, ps[j - 1].end)
      invariant forall k :: i < k < |ps| ==> periods[k] == ps[k]
      invariant forall k :: 0 <= k < i ==> periods[k] == old(periods[k])
    {
      if periods[i].end >= periods[j].start {
        periods[i] := periods[i].(end := periods[j].end);
        expanded := expanded + 1;
      } else {
        return;
      }
    }
  }

  /**
   * The outer `while i` loop of `extract_periods`: each run is absorbed into
   * its first period and that period is appended to the merged list.
   */
  method MergeInPlace(periods: array<Period>) returns (merged: seq<Period>)
    modifies periods
    ensures merged == Merge(old(periods[..]))
  {
    ghost var ps := periods[..];
    merged := [];
    var i := 0;
    assert merged + MergeFrom(ps, i) == Merge(ps) by {
      assert merged + Merge(ps) == Merge(ps);
    }
    while i < periods.Length
      invariant 0 <= i <= periods.Length == |ps|
      invariant forall k :: i <= k < |ps| ==> periods[k] == ps[k]
      invariant merged + MergeFrom(ps, i) == Merge(ps)
      decreases |ps| - i
    {
      var expanded := AbsorbRun(periods, i, ps);
      var next := i + expanded + 1;
      MergeFromStep(ps, i, next - 1);
      assert MergeFrom(ps, i) == [periods[i]] + MergeFrom(ps, next);
      assert (merged + [periods[i]]) + MergeFrom(ps, next) == merged + MergeFrom(ps, i);
      merged := merged + [periods[i]];
      i := next;
    }
    assert merged == merged + MergeFrom(ps, i);
  }

  /**
   * `extract_periods`: the list of padded periods is built, adjusted and then
   * merged in place, as the source does with its `while i` / `for j` loops.
   */
  method ExtractPeriods(cfg: Config, subs: seq<Cue>) returns (r: Result<seq<Period>, Error>)
    ensures r == PeriodsOf(cfg, subs)
  {
    if |subs| == 0 {
      return Failure(EmptySubtitleFile);
    }
    var candidates := Candidates(FilterCues(cfg, subs), cfg.padding);
    if |candidates| == 0 {
      return Failure(NoSpeechCue);
    }
    var periods := new Period[|candidates|](k requires 0 <= k < |candidates| => candidates[k]);
    var n := periods.Length;
    assert periods[..] == candidates;
    ghost var first := if candidates[0].start < 0 then candidates[0].(start := 0) else candidates[0];
    if periods[0].start < 0 {
      periods[0] := periods[0].(start := 0);
    }
    ghost var clamped := periods[..];
    assert clamped == candidates[0 := first];
    periods[n - 1] := periods[n - 1].(end := periods[n - 1].end - cfg.padding);
    ghost var ps := periods[..];
    assert ps == clamped[n - 1 := clamped[n - 1].(end := clamped[n - 1].end - cfg.padding)];
    assert ps == Adjust(candidates, cfg.padding);

    var merged := MergeInPlace(periods);
    return Success(merged);
  }

  /**
   * What `extract_periods` promises: an empty file and a file whose every cue
   * is filtered away are the two errors; otherwise there are between one
   * merged period and one per surviving cue, the first starts at the first
   * surviving cue's start less the padding (but not before 0), the last ends
   * at the last surviving cue's own end, and the merged periods are separated
   * by gaps.
   */
  lemma PeriodsOfOutcome(cfg: Config, subs: seq<Cue>)
    ensures var sv := Survivors(FilterCues(cfg, subs));
      && (PeriodsOf(cfg, subs) == Failure(EmptySubtitleFile) <==> |subs| == 0)
      && (PeriodsOf(cfg, subs) == Failure(NoSpeechCue) <==> |subs| > 0 && |sv| == 0)
      && (PeriodsOf(cfg, subs).Success? <==> |sv| > 0)
    ensures var sv := Survivors(FilterCues(cfg, subs));
      PeriodsOf(cfg, subs).Success? ==>
        var ms := PeriodsOf(cfg, subs).value;
        && 1 <= |ms| <= |sv| <= |subs|
        && ms[0].start == (if sv[0].start - cfg.padding < 0 then 0 else sv[0].start - cfg.padding)
        && ms[|ms| - 1].end == sv[|sv| - 1].end
        && (forall k :: 0 < k < |ms| ==> GapBefore(ms, k))
  {
    var sv := Survivors(FilterCues(cfg, subs));
    if |subs| > 0 && |sv| > 0 {
      var cs := Candidates(FilterCues(cfg, subs), cfg.padding);
      var ps := Adjust(cs, cfg.padding);
      MergeStructure(ps);
      MergedEndsAndGaps(ps, 0);
      assert cs[0] == Pad(sv[0], cfg.padding);
      assert cs[|cs| - 1] == Pad(sv[|sv| - 1], cfg.padding);
    }
  }

  /**
   * A cue nested inside a longer one shrinks the merged period to the inner
   * cue's end, because the running end is replaced rather than maximised.
   */
  lemma NestedCueShrinks()
    ensures var cfg := Defaults().(padding := 0);
      PeriodsOf(cfg, [Cue(0, 10000, "a"), Cue(1000, 2000, "b")]) == Success([Period(0, 2000)])
  {
    var cfg := Defaults().(padding := 0);
    var subs := [Cue(0, 10000, "a"), Cue(1000, 2000, "b")];
    assert FilterCues(cfg, subs) == subs;
    assert Survivors(subs) == subs by {
      assert subs[1..] == [Cue(1000, 2000, "b")];
      assert subs[1..][1..] == [];
    }
    var ps := [Period(0, 10000), Period(1000, 2000)];
    assert Adjust(Candidates(subs, 0), 0) == ps;
    assert RunLast(ps, 0) == 1;
    assert MergeFrom(ps, 2) == [];
    assert Merge(ps) == [Period(0, 2000)];
  }

  /**
   * With the default padding of 500, cues 500 ms apart touch once padded
   * (the merge test includes equality) and become one period.
   */
  lemma TouchingCuesMerge()
    ensures PeriodsOf(Defaults(), [Cue(1000, 2000, "a"), Cue(2500, 3000, "b")]) == Success([Period(500, 3000)])
  {
    var cfg := Defaults();
    var subs := [Cue(1000, 2000, "a"), Cue(2500, 3000, "b")];
    assert FilterCues(cfg, subs) == subs;
    assert Survivors(subs) == subs by {
      assert subs[1..] == [Cue(2500, 3000, "b")];
      assert subs[1..][1..] == [];
    }
    var ps := [Period(500, 2500), Period(2000, 3000)];
    assert Adjust(Candidates(subs, 500), 500) == ps;
    assert RunLast(ps, 0) == 1;
    assert MergeFrom(ps, 2) == [];
    assert Merge(ps) == [Period(500, 3000)];
  }
}
