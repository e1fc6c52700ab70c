/**
 * Mapping the subtitle cues onto the condensed timeline (`condense_subtitles`).
 * For every kept period in turn, every cue lying wholly inside it is moved to
 * `t - start + offset` and emitted.  The cue objects are changed in place, so
 * a later period sees the moved cues; and `offset` ends each period equal to
 * that period's length alone rather than to the running total.
 */
module Retime {
  import opened Config
  import opened Periods

  /** The cue lies wholly inside the period, both ends included. */
  predicate Inside(c: Cue, p: Period)
  {
    p.start <= c.start && c.end <= p.end
  }

  /** The cue moved so that the period's start lands on `offset`. */
  function Shift(c: Cue, p: Period, offset: int): (r: Cue)
    ensures r.text == c.text && r.end - r.start == c.end - c.start
    ensures r.start - offset == c.start - p.start
  {
    Cue(c.start - p.start + offset, c.end - p.start + offset, c.text)
  }

  /** The cues one period emits, in cue order (defined from the right, as the loop appends). */
  function Emit(cues: seq<Cue>, p: Period, offset: int): (r: seq<Cue>)
    ensures |r| <= |cues|
  {
    if cues == [] then []
    else
      var last := cues[|cues| - 1];
      Emit(cues[..|cues| - 1], p, offset) + (if Inside(last, p) then [Shift(last, p, offset)] else [])
  }

  /** The cue list after one period has moved the cues inside it. */
  function Update(cues: seq<Cue>, p: Period, offset: int): (r: seq<Cue>)
    ensures |r| == |cues|
    ensures forall i :: 0 <= i < |cues| ==>
      r[i] == if Inside(cues[i], p) then Shift(cues[i], p, offset) else cues[i]
  {
    seq(|cues|, i requires 0 <= i < |cues| => if Inside(cues[i], p) then Shift(cues[i], p, offset) else cues[i])
  }

  /**
   * `condense_subtitles` as written: the periods are handled in order, each
   * one seeing the cues as the earlier ones left them, with
   * `end_time = end - start - offset` and `offset += end_time`.
   */
  function Threaded(periods: seq<Period>, cues: seq<Cue>, offset: int): seq<Cue>
    decreases |periods|
  {
    if periods == [] then []
    else
      var p := periods[0];
      var endTime := p.end - p.start - offset;
      Emit(cues, p, offset) + Threaded(periods[1..], Update(cues, p, offset), offset + endTime)
  }

  /** The length of the period before period `k` (0 for the first): the offset period `k` is shifted by. */
  function PrevLength(periods: seq<Period>, k: nat): int
    requires k <= |periods|
  {
    if k == 0 then 0 else periods[k - 1].end - periods[k - 1].start
  }

  /**
   * The retiming over the original cues: period `k` emits the original cues
   * inside it, shifted by the length of period `k - 1`.
   */
  function Condensed(periods: seq<Period>, cues: seq<Cue>, offset: int): seq<Cue>
    decreases |periods|
  {
    if periods == [] then []
    else Emit(cues, periods[0], offset) + Condensed(periods[1..], cues, periods[0].end - periods[0].start)
  }

  /** A cue is emitted for a period exactly when some cue lies inside it, moved by the offset. */
  lemma {:induction false} EmitMembers(cues: seq<Cue>, p: Period, offset: int)
    ensures forall c :: c in Emit(cues, p, offset) <==>
      exists i :: 0 <= i < |cues| && Inside(cues[i], p) && c == Shift(cues[i], p, offset)
    decreases |cues|
  {
    if cues != [] {
      var init := cues[..|cues| - 1];
      EmitMembers(init, p, offset);
      forall c ensures c in Emit(cues, p, offset) <==>
        exists i :: 0 <= i < |cues| && Inside(cues[i], p) && c == Shift(cues[i], p, offset)
      {
        if c in Emit(init, p, offset) {
          var i :| 0 <= i < |init| && Inside(init[i], p) && c == Shift(init[i], p, offset);
          assert cues[i] == init[i];
        }
        if exists i :: 0 <= i < |cues| && Inside(cues[i], p) && c == Shift(cues[i], p, offset) {
          var i :| 0 <= i < |cues| && Inside(cues[i], p) && c == Shift(cues[i], p, offset);
          if i < |init| {
            assert init[i] == cues[i];
          }
        }
      }
    }
  }

  /** The periods start at 0 or later, end no earlier than they start, and each starts after the previous one ends. */
  predicate OrderedPeriods(periods: seq<Period>)
  {
    && (forall k :: 0 <= k < |periods| ==> 0 <= periods[k].start <= periods[k].end)
    && (forall k :: 0 < k < |periods| ==> GapBefore(periods, k))
  }

  predicate WellFormedCues(cues: seq<Cue>)
  {
    forall i :: 0 <= i < |cues| ==> cues[i].start <= cues[i].end
  }

  /** Every period starts no earlier than the first one. */
  lemma {:induction false} StartsFromFirst(periods: seq<Period>, k: nat)
    requires OrderedPeriods(periods) && k < |periods|
    ensures periods[0].start <= periods[k].start
  {
    if k > 0 {
      StartsFromFirst(periods, k - 1);
      assert GapBefore(periods, k);
    }
  }

  /** The inductive step behind `NoRematch`: moved cues sit before every remaining period. */
  lemma {:induction false} NoRematchFrom(periods: seq<Period>, moved: seq<Cue>, orig: seq<Cue>, offset: int)
    requires OrderedPeriods(periods) && WellFormedCues(orig) && |moved| == |orig|
    requires periods != [] ==> offset <= periods[0].start
    requires periods != [] ==> forall i :: 0 <= i < |orig| ==>
      moved[i] == orig[i] || (moved[i].start < periods[0].start && orig[i].end < periods[0].start)
    ensures Threaded(periods, moved, offset) == Condensed(periods, orig, offset)
    decreases |periods|
  {
    if periods != [] {
      var p := periods[0];
      assert Emit(moved, p, offset) == Emit(orig, p, offset) by {
        EmitSame(moved, orig, p, offset);
      }
      var rest := periods[1..];
      var next := Update(moved, p, offset);
      assert OrderedPeriods(rest) by {
        forall k | 0 < k < |rest| ensures GapBefore(rest, k) {
          assert GapBefore(periods, k + 1);
        }
      }
      if rest != [] {
        assert GapBefore(periods, 1);
        forall i | 0 <= i < |orig|
          ensures next[i] == orig[i] || (next[i].start < rest[0].start && orig[i].end < rest[0].start)
        {
          if moved[i] == orig[i] && Inside(orig[i], p) {
            assert next[i].start <= offset + p.end - p.start;
          }
        }
      }
      NoRematchFrom(rest, next, orig, p.end - p.start);
    }
  }

  /** A period emits the same from two cue lists that agree on every cue that could lie inside it. */
  lemma {:induction false} EmitSame(moved: seq<Cue>, orig: seq<Cue>, p: Period, offset: int)
    requires |moved| == |orig| && p.start <= p.end && WellFormedCues(orig)
    requires forall i :: 0 <= i < |orig| ==>
      moved[i] == orig[i] || (moved[i].start < p.start && orig[i].end < p.start)
    ensures Emit(moved, p, offset) == Emit(orig, p, offset)
    decreases |orig|
  {
    if orig != [] {
      var n := |orig| - 1;
      EmitSame(moved[..n], orig[..n], p, offset);
    }
  }

  /**
   * Why the in-place update never matters: when the periods are ordered (the
   * merge produces such periods, `PeriodsOfOrdered`) and the cues well formed,
   * a moved cue lands before every later period, so the periods see the
   * original cues.
   */
  lemma NoRematch(periods: seq<Period>, cues: seq<Cue>)
    requires OrderedPeriods(periods) && WellFormedCues(cues)
    ensures Threaded(periods, cues, 0) == Condensed(periods, cues, 0)
  {
    NoRematchFrom(periods, cues, cues, 0);
  }

  /** Every cue starts at 0 or later, as the parsed SRT times do. */
  predicate StartsNonNegative(cues: seq<Cue>)
  {
    forall i :: 0 <= i < |cues| ==> 0 <= cues[i].start
  }

  /**
   * The padded and adjusted periods, one per surviving cue, still cover their
   * cue, and the first one starts at 0 or later.
   */
  lemma AdjustedCover(sv: seq<Cue>, cs: seq<Period>, padding: int)
    requires |sv| > 0 && |cs| == |sv| && padding >= 0 && StartsNonNegative(sv)
    requires forall k :: 0 <= k < |cs| ==> cs[k] == Pad(sv[k], padding)
    ensures var ps := Adjust(cs, padding);
      && 0 <= ps[0].start
      && forall k :: 0 <= k < |ps| ==> ps[k].start <= sv[k].start && sv[k].end <= ps[k].end
  {
    var ps := Adjust(cs, padding);
    forall k | 0 <= k < |ps| ensures ps[k].start <= sv[k].start && sv[k].end <= ps[k].end {
      if 0 < k < |ps| - 1 {
        assert ps[k] == cs[k];
      }
    }
  }

  /** The surviving cues of a sorted, well-formed cue list are sorted and well formed too. */
  lemma SurvivorsWellFormed(cfg: Config, subs: seq<Cue>)
    requires SortedByStart(subs) && WellFormedCues(subs) && StartsNonNegative(subs)
    ensures var sv := Survivors(FilterCues(cfg, subs));
      SortedByStart(sv) && WellFormedCues(sv) && StartsNonNegative(sv)
  {
    var fc := FilterCues(cfg, subs);
    var sv := Survivors(fc);
    SurvivorsProperties(fc);
    forall i | 0 <= i < |sv| ensures 0 <= sv[i].start <= sv[i].end {
      assert sv[i] in fc;
    }
  }

  /** Periods that cover sorted, well-formed cues, the first starting at 0 or later. */
  predicate Covers(sv: seq<Cue>, ps: seq<Period>)
  {
    && |sv| == |ps| > 0
    && SortedByStart(sv) && WellFormedCues(sv) && StartsNonNegative(sv)
    && 0 <= ps[0].start
    && forall k :: 0 <= k < |ps| ==> ps[k].start <= sv[k].start && sv[k].end <= ps[k].end
  }

  /** Merged period `k` spans a block `[s, e]` of the periods, and `s` is 0 or opens a run. */
  lemma MergedRun(ps: seq<Period>, k: nat)
    requires k < |Merge(ps)|
    ensures k < |RunStarts(ps, 0)|
    ensures var rs := RunStarts(ps, 0);
      var s, e := rs[k], RunEnd(rs, k, |ps|) - 1;
      && s <= e < |ps|
      && Merge(ps)[k] == Period(ps[s].start, ps[e].end)
      && (s > 0 ==> GapBefore(ps, s))
  {
    MergeCount(ps, 0);
    SpanOfRun(ps, 0, k);
    var s := RunStarts(ps, 0)[k];
    if s > 0 {
      OpensRun(ps, 0, s);
    }
  }

  /** Merged period `k` of covering periods starts at 0 or later and ends no earlier than it starts. */
  lemma MergedPeriodOrdered(sv: seq<Cue>, ps: seq<Period>, k: nat)
    requires Covers(sv, ps) && k < |Merge(ps)|
    ensures 0 <= Merge(ps)[k].start <= Merge(ps)[k].end
  {
    MergedRun(ps, k);
    var rs := RunStarts(ps, 0);
    var s, e := rs[k], RunEnd(rs, k, |ps|) - 1;
    if s > 0 {
      assert 0 <= sv[s - 1].start <= sv[s - 1].end <= ps[s - 1].end;
    }
    assert ps[s].start <= sv[s].start <= sv[e].start <= sv[e].end <= ps[e].end;
  }

  /** Merging periods that cover sorted, well-formed cues gives ordered periods. */
  lemma MergedOrdered(sv: seq<Cue>, ps: seq<Period>)
    requires Covers(sv, ps)
    ensures OrderedPeriods(Merge(ps))
  {
    MergedEndsAndGaps(ps, 0);
    forall k | 0 <= k < |Merge(ps)| ensures 0 <= Merge(ps)[k].start <= Merge(ps)[k].end {
      MergedPeriodOrdered(sv, ps, k);
    }
  }

  /**
   * The periods `extract_periods` returns for a cue file sorted by start, with
   * well-formed cues and a non-negative padding, are ordered: each starts at
   * 0 or later, ends no earlier than it starts, and starts after the previous
   * one ends.
   */
  lemma PeriodsOfOrdered(cfg: Config, subs: seq<Cue>)
    requires SortedByStart(subs) && WellFormedCues(subs) && StartsNonNegative(subs)
    requires cfg.padding >= 0
    ensures PeriodsOf(cfg, subs).Success? ==> OrderedPeriods(PeriodsOf(cfg, subs).value)
  {
    if PeriodsOf(cfg, subs).Success? {
      var sv := Survivors(FilterCues(cfg, subs));
      SurvivorsWellFormed(cfg, subs);
      var cs := Candidates(FilterCues(cfg, subs), cfg.padding);
      AdjustedCover(sv, cs, cfg.padding);
      MergedOrdered(sv, Adjust(cs, cfg.padding));
    }
  }

  /**
   * `condense_subtitles` on the periods `extract_periods` gives for the same
   * file emits what the original cues give, so the in-place update of the cue
   * objects changes nothing there.
   */
  lemma ExtractedNoRematch(cfg: Config, subs: seq<Cue>)
    requires SortedByStart(subs) && WellFormedCues(subs) && StartsNonNegative(subs)
    requires cfg.padding >= 0
    ensures PeriodsOf(cfg, subs).Success? ==>
      Threaded(PeriodsOf(cfg, subs).value, subs, 0) == Condensed(PeriodsOf(cfg, subs).value, subs, 0)
  {
    if PeriodsOf(cfg, subs).Success? {
      PeriodsOfOrdered(cfg, subs);
      NoRematch(PeriodsOf(cfg, subs).value, subs);
    }
  }

  /** The padding the configuration loader sets is never negative, so `ExtractedNoRematch` holds for every loaded setting. */
  lemma LoadedNoRematch(c: Config, requested: int, subs: seq<Cue>)
    requires SortedByStart(subs) && WellFormedCues(subs) && StartsNonNegative(subs)
    ensures var cfg := WithPadding(c, requested);
      PeriodsOf(cfg, subs).Success? ==>
        Threaded(PeriodsOf(cfg, subs).value, subs, 0) == Condensed(PeriodsOf(cfg, subs).value, subs, 0)
  {
    ExtractedNoRematch(WithPadding(c, requested), subs);
  }

  /** One cue `c` is emitted from period `k0` on exactly when it is some cue inside a period `k >= k0`, moved by the length of period `k - 1`. */
  lemma {:induction false} CondensedMember(periods: seq<Period>, cues: seq<Cue>, k0: nat, c: Cue)
    requires k0 <= |periods|
    ensures c in Condensed(periods[k0..], cues, PrevLength(periods, k0)) <==>
      exists k, i :: k0 <= k < |periods| && 0 <= i < |cues| && Inside(cues[i], periods[k]) &&
        c == Shift(cues[i], periods[k], PrevLength(periods, k))
    decreases |periods| - k0
  {
    if k0 < |periods| {
      var p := periods[k0];
      var head := Emit(cues, p, PrevLength(periods, k0));
      assert periods[k0..][1..] == periods[k0 + 1..];
      assert PrevLength(periods, k0 + 1) == p.end - p.start;
      assert Condensed(periods[k0..], cues, PrevLength(periods, k0)) ==
        head + Condensed(periods[k0 + 1..], cues, PrevLength(periods, k0 + 1));
      CondensedMember(periods, cues, k0 + 1, c);
      EmitMembers(cues, p, PrevLength(periods, k0));
      if c in head {
        var i :| 0 <= i < |cues| && Inside(cues[i], p) && c == Shift(cues[i], p, PrevLength(periods, k0));
        assert k0 <= k0 < |periods| && Inside(cues[i], periods[k0]);
      }
      if exists k, i :: k0 <= k < |periods| && 0 <= i < |cues| && Inside(cues[i], periods[k]) &&
                        c == Shift(cues[i], periods[k], PrevLength(periods, k))
      {
        var k, i :| k0 <= k < |periods| && 0 <= i < |cues| && Inside(cues[i], periods[k]) &&
          c == Shift(cues[i], periods[k], PrevLength(periods, k));
        if k == k0 {
          assert c in head;
        } else {
          assert k0 + 1 <= k;
        }
      }
    }
  }

  /**
   * What the retiming emits: exactly the original cues lying inside some
   * period `k`, each moved by the length of period `k - 1`.
   */
  lemma CondensedMembers(periods: seq<Period>, cues: seq<Cue>)
    ensures forall c :: c in Condensed(periods, cues, 0) <==>
      exists k, i :: 0 <= k < |periods| && 0 <= i < |cues| && Inside(cues[i], periods[k]) &&
        c == Shift(cues[i], periods[k], PrevLength(periods, k))
  {
    assert periods[0..] == periods;
    forall c ensures c in Condensed(periods, cues, 0) <==>
      exists k, i :: 0 <= k < |periods| && 0 <= i < |cues| && Inside(cues[i], periods[k]) &&
        c == Shift(cues[i], periods[k], PrevLength(periods, k))
    {
      CondensedMember(periods, cues, 0, c);
    }
  }

  /** The cues one period emits from a list of three, spelled out. */
  lemma EmitThree(a: Cue, b: Cue, c: Cue, p: Period, offset: int)
    ensures Emit([a, b, c], p, offset) ==
      (if Inside(a, p) then [Shift(a, p, offset)] else []) +
      (if Inside(b, p) then [Shift(b, p, offset)] else []) +
      (if Inside(c, p) then [Shift(c, p, offset)] else [])
  {
    assert [a, b, c][..2] == [a, b];
    assert [a, b][..1] == [a];
    assert [a][..0] == [];
    assert Emit([a], p, offset) == (if Inside(a, p) then [Shift(a, p, offset)] else []);
    assert Emit([a, b], p, offset) == Emit([a], p, offset) + (if Inside(b, p) then [Shift(b, p, offset)] else []);
    assert Emit([a, b, c], p, offset) == Emit([a, b], p, offset) + (if Inside(c, p) then [Shift(c, p, offset)] else []);
  }

  /** The cue list after one period, from a list of three, spelled out. */
  lemma UpdateThree(a: Cue, b: Cue, c: Cue, p: Period, offset: int)
    ensures Update([a, b, c], p, offset) ==
      [if Inside(a, p) then Shift(a, p, offset) else a,
       if Inside(b, p) then Shift(b, p, offset) else b,
       if Inside(c, p) then Shift(c, p, offset) else c]
  {
    var r := Update([a, b, c], p, offset);
    assert r[0] == (if Inside(a, p) then Shift(a, p, offset) else a);
    assert r[1] == (if Inside(b, p) then Shift(b, p, offset) else b);
    assert r[2] == (if Inside(c, p) then Shift(c, p, offset) else c);
  }

  /**
   * The offset as written is the previous period's length alone, so from the
   * third period on cues can land on top of earlier ones: with three periods
   * of length `d` two apart, each holding one cue that fills it, the second
   * and third cues both end up at `[d, 2d]`.
   */
  lemma OverlapWitness(d: int, x: string, y: string, z: string)
    requires d > 0
    ensures var periods := [Period(0, d), Period(2 * d, 3 * d), Period(4 * d, 5 * d)];
      var cues := [Cue(0, d, x), Cue(2 * d, 3 * d, y), Cue(4 * d, 5 * d, z)];
      Threaded(periods, cues, 0) == [Cue(0, d, x), Cue(d, 2 * d, y), Cue(d, 2 * d, z)]
  {
    var a, b, c := Cue(0, d, x), Cue(2 * d, 3 * d, y), Cue(4 * d, 5 * d, z);
    var periods := [Period(0, d), Period(2 * d, 3 * d), Period(4 * d, 5 * d)];
    var rest := [Period(2 * d, 3 * d), Period(4 * d, 5 * d)];
    assert periods[1..] == rest;
    EmitThree(a, b, c, periods[0], 0);
    UpdateThree(a, b, c, periods[0], 0);
    OverlapTail(d, x, y, z);
  }

  /** The last two periods of `OverlapWitness`, both shifted by `d`. */
  lemma OverlapTail(d: int, x: string, y: string, z: string)
    requires d > 0
    ensures var rest := [Period(2 * d, 3 * d), Period(4 * d, 5 * d)];
      Threaded(rest, [Cue(0, d, x), Cue(2 * d, 3 * d, y), Cue(4 * d, 5 * d, z)], d) ==
        [Cue(d, 2 * d, y), Cue(d, 2 * d, z)]
  {
    var a, b, c := Cue(0, d, x), Cue(2 * d, 3 * d, y), Cue(4 * d, 5 * d, z);
    var b' := Cue(d, 2 * d, y);
    var rest := [Period(2 * d, 3 * d), Period(4 * d, 5 * d)];
    var last := [Period(4 * d, 5 * d)];
    assert rest[1..] == last && last[1..] == [];
    EmitThree(a, b, c, rest[0], d);
    UpdateThree(a, b, c, rest[0], d);
    EmitThree(a, b', c, last[0], d);
    assert Threaded(last, [a, b', c], d) == [Cue(d, 2 * d, z)] + Threaded([], Update([a, b', c], last[0], d), d);
  }

  /** The total length of the periods. */
  function TotalLength(periods: seq<Period>): int
    decreases |periods|
  {
    if periods == [] then 0 else periods[0].end - periods[0].start + TotalLength(periods[1..])
  }

  /** The retiming the offset comment describes: each period is shifted by the total length of the periods before it. */
  function Cumulative(periods: seq<Period>, cues: seq<Cue>, offset: int): seq<Cue>
    decreases |periods|
  {
    if periods == [] then []
    else
      var p := periods[0];
      Emit(cues, p, offset) + Cumulative(periods[1..], cues, offset + (p.end - p.start))
  }

  /**
   * With the running total as offset, every cue emitted lies within
   * `[offset, offset + TotalLength(periods)]`, and the cues of each period end
   * no later than any cue of a later period starts: the condensed timeline
   * keeps the periods apart and in order.
   */
  lemma {:induction false} CumulativeSeparated(periods: seq<Period>, cues: seq<Cue>, offset: int)
    requires forall k :: 0 <= k < |periods| ==> periods[k].start <= periods[k].end
    ensures forall c :: c in Cumulative(periods, cues, offset) ==>
      offset <= c.start && c.end <= offset + TotalLength(periods)
    ensures periods != [] ==>
      var p := periods[0];
      forall a, b :: a in Emit(cues, p, offset) && b in Cumulative(periods[1..], cues, offset + (p.end - p.start)) ==>
        a.end <= b.start
    decreases |periods|
  {
    if periods != [] {
      var p := periods[0];
      var rest := periods[1..];
      CumulativeSeparated(rest, cues, offset + (p.end - p.start));
      EmitMembers(cues, p, offset);
      assert TotalLength(rest) >= 0 by {
        LengthNonNegative(rest);
      }
    }
  }

  lemma {:induction false} LengthNonNegative(periods: seq<Period>)
    requires forall k :: 0 <= k < |periods| ==> periods[k].start <= periods[k].end
    ensures TotalLength(periods) >= 0
    decreases |periods|
  {
    if periods != [] {
      LengthNonNegative(periods[1..]);
    }
  }

  /** On the same input as `OverlapWitness`, the running total puts the third cue at `[2d, 3d]`. */
  lemma CumulativeWitness(d: int, x: string, y: string, z: string)
    requires d > 0
    ensures var periods := [Period(0, d), Period(2 * d, 3 * d), Period(4 * d, 5 * d)];
      var cues := [Cue(0, d, x), Cue(2 * d, 3 * d, y), Cue(4 * d, 5 * d, z)];
      Cumulative(periods, cues, 0) == [Cue(0, d, x), Cue(d, 2 * d, y), Cue(2 * d, 3 * d, z)]
  {
    var a, b, c := Cue(0, d, x), Cue(2 * d, 3 * d, y), Cue(4 * d, 5 * d, z);
    var periods := [Period(0, d), Period(2 * d, 3 * d), Period(4 * d, 5 * d)];
    var rest := [Period(2 * d, 3 * d), Period(4 * d, 5 * d)];
    var last := [Period(4 * d, 5 * d)];
    assert periods[1..] == rest && rest[1..] == last && last[1..] == [];
    EmitThree(a, b, c, periods[0], 0);
    EmitThree(a, b, c, rest[0], d);
    EmitThree(a, b, c, last[0], 2 * d);
    assert Cumulative(last, [a, b, c], 2 * d) == [Cue(2 * d, 3 * d, z)];
    assert Cumulative(rest, [a, b, c], d) == [Cue(d, 2 * d, y), Cue(2 * d, 3 * d, z)];
  }

  /**
   * One pass of the inner loop of `condense_subtitles`: every cue inside the
   * period is moved in place and appended to the output.
   */
  method MoveInside(cues: array<Cue>, p: Period, offset: int) returns (emitted: seq<Cue>)
    modifies cues
    ensures cues[..] == Update(old(cues[..]), p, offset)
    ensures emitted == Emit(old(cues[..]), p, offset)
  {
    ghost var before := cues[..];
    emitted := [];
    for i := 0 to cues.Length
      invariant cues[..i] == Update(before, p, offset)[..i]
      invariant cues[i..] == before[i..]
      invariant emitted == Emit(before[..i], p, offset)
    {
      if cues[i].start >= p.start && cues[i].end <= p.end {
        cues[i] := Cue(cues[i].start - p.start + offset, cues[i].end - p.start + offset, cues[i].text);
        emitted := emitted + [cues[i]];
      }
      assert before[..i + 1][..i] == before[..i];
      assert cues[..i + 1] == cues[..i] + [cues[i]];
      assert Update(before, p, offset)[..i + 1] == Update(before, p, offset)[..i] + [Update(before, p, offset)[i]];
    }
    assert before[..cues.Length] == before;
  }

  /**
   * `condense_subtitles`: the cues are copied into an array whose entries are
   * moved in place, and each moved cue is appended to the output.  After
   * period `k`, `offset` is the length of period `k`.
   */
  method CondenseSubtitles(periods: seq<Period>, subs: seq<Cue>) returns (condensed: seq<Cue>)
    ensures condensed == Threaded(periods, subs, 0)
  {
    var cues := new Cue[|subs|](i requires 0 <= i < |subs| => subs[i]);
    assert cues[..] == subs;
    condensed := [];
    var offset := 0;
    for k := 0 to |periods|
      invariant offset == PrevLength(periods, k)
      invariant condensed + Threaded(periods[k..], cues[..], offset) == Threaded(periods, subs, 0)
    {
      var p := periods[k];
      var endTime := p.end - p.start - offset;
      ghost var before := cues[..];
      var emitted := MoveInside(cues, p, offset);
      assert periods[k..][1..] == periods[k + 1..];
      assert Threaded(periods[k..], before, offset) == emitted + Threaded(periods[k + 1..], cues[..], offset + endTime);
      condensed := condensed + emitted;
      offset := offset + endTime;
    }
  }
}
