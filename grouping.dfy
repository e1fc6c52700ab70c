/**
 * Grouping the videos of a folder by their stream labels (`main`): when
 * the label lists are not all equal, each video joins the first group whose
 * first member has the same (audio labels, subtitle labels) pair, or opens
 * a new group.  Groups are lists of video indices.
 */
module Grouping {
  import opened Wrappers
  import opened Streams

  /** Every group is non-empty and holds indices below `n`. */
  predicate WellFormed(groups: seq<seq<nat>>, n: nat)
  {
    forall g :: 0 <= g < |groups| ==>
      |groups[g]| > 0 && forall a :: 0 <= a < |groups[g]| ==> groups[g][a] < n
  }

  /** Video `i` joins the first group from `g` on whose first member has its signature, or opens a new group. */
  function PlaceAt<T(==)>(opts: seq<T>, groups: seq<seq<nat>>, i: nat, g: nat): (r: seq<seq<nat>>)
    requires i < |opts| && WellFormed(groups, i) && g <= |groups|
    ensures WellFormed(r, i + 1)
    decreases |groups| - g
  {
    if g == |groups| then groups + [[i]]
    else if opts[groups[g][0]] == opts[i] then groups[g := groups[g] + [i]]
    else PlaceAt(opts, groups, i, g + 1)
  }

  /** The groups of the first `n` videos. */
  function Grouped<T(==)>(opts: seq<T>, n: nat): (r: seq<seq<nat>>)
    requires 1 <= n <= |opts|
    ensures WellFormed(r, n)
  {
    if n == 1 then [[0]] else PlaceAt(opts, Grouped(opts, n - 1), n - 1, 0)
  }

  function FirstFit<T(==)>(opts: seq<T>): seq<seq<nat>>
    requires |opts| > 0
  {
    Grouped(opts, |opts|)
  }

  /**
   * The groups partition `[0, n)`: each index lies in exactly one group, the
   * indices in a group increase, the groups are ordered by their first index,
   * all members of a group share its first member's signature and different
   * groups have different signatures.
   */
  predicate IsGrouping<T(==)>(opts: seq<T>, groups: seq<seq<nat>>, n: nat)
    requires n <= |opts| && WellFormed(groups, n)
  {
    && (forall g, a, b :: 0 <= g < |groups| && 0 <= a < b < |groups[g]| ==> groups[g][a] < groups[g][b])
    && (forall i :: 0 <= i < n ==> InSome(groups, i))
    && (forall g1, g2, i :: 0 <= g1 < |groups| && 0 <= g2 < |groups| && i in groups[g1] && i in groups[g2] ==> g1 == g2)
    && (forall g, a :: 0 <= g < |groups| && 0 <= a < |groups[g]| ==> opts[groups[g][a]] == opts[groups[g][0]])
    && (forall g1, g2 :: 0 <= g1 < g2 < |groups| ==> opts[groups[g1][0]] != opts[groups[g2][0]])
    && (forall g1, g2 :: 0 <= g1 < g2 < |groups| ==> groups[g1][0] < groups[g2][0])
  }

  /** Index `i` is in some group. */
  predicate InSome(groups: seq<seq<nat>>, i: nat)
  {
    exists g :: 0 <= g < |groups| && i in groups[g]
  }

  /** Placing video `i` keeps the groups a grouping, now of `[0, i]`. */
  lemma {:induction false} PlaceKeepsGrouping<T>(opts: seq<T>, groups: seq<seq<nat>>, i: nat, g: nat)
    requires i < |opts| && WellFormed(groups, i) && g <= |groups| && IsGrouping(opts, groups, i)
    requires forall h :: 0 <= h < g ==> opts[groups[h][0]] != opts[i]
    ensures IsGrouping(opts, PlaceAt(opts, groups, i, g), i + 1)
    decreases |groups| - g
  {
    var r := PlaceAt(opts, groups, i, g);
    if g == |groups| {
      assert r[|groups|] == [i];
      forall j | 0 <= j < i + 1 ensures InSome(r, j) {
        if j == i {
          assert i in r[|groups|];
        } else {
          assert InSome(groups, j);
          var h :| 0 <= h < |groups| && j in groups[h];
          assert j in r[h];
        }
      }
    } else if opts[groups[g][0]] == opts[i] {
      forall j | 0 <= j < i + 1 ensures InSome(r, j) {
        if j == i {
          assert i in r[g];
        } else {
          assert InSome(groups, j);
          var h :| 0 <= h < |groups| && j in groups[h];
          assert j in r[h];
        }
      }
    } else {
      PlaceKeepsGrouping(opts, groups, i, g + 1);
    }
  }

  /** The first-fit groups of the first `n` videos partition them by signature. */
  lemma {:induction false} GroupedIsGrouping<T>(opts: seq<T>, n: nat)
    requires 1 <= n <= |opts|
    ensures IsGrouping(opts, Grouped(opts, n), n)
  {
    if n > 1 {
      GroupedIsGrouping(opts, n - 1);
      PlaceKeepsGrouping(opts, Grouped(opts, n - 1), n - 1, 0);
    } else {
      assert Grouped(opts, 1) == [[0]];
      assert 0 in [[0]][0];
      assert InSome([[0]], 0);
    }
  }

  /** Two videos share a group exactly when their signatures are equal. */
  lemma SameGroupIffSameSignature<T>(opts: seq<T>, g1: nat, a: nat, g2: nat, b: nat)
    requires |opts| > 0
    requires g1 < |FirstFit(opts)| && a < |FirstFit(opts)[g1]|
    requires g2 < |FirstFit(opts)| && b < |FirstFit(opts)[g2]|
    ensures opts[FirstFit(opts)[g1][a]] == opts[FirstFit(opts)[g2][b]] <==> g1 == g2
  {
    GroupedIsGrouping(opts, |opts|);
  }

  /** When every video has the same signature, first fit makes one group of all of them, in order. */
  lemma {:induction false} AllEqualOneGroup<T>(opts: seq<T>, n: nat)
    requires 1 <= n <= |opts|
    requires forall k :: 0 <= k < n ==> opts[k] == opts[0]
    ensures Grouped(opts, n) == [seq(n, k => k)]
  {
    if n > 1 {
      AllEqualOneGroup(opts, n - 1);
      var first := seq(n - 1, k => k);
      assert Grouped(opts, n) == PlaceAt(opts, [first], n - 1, 0);
      assert opts[first[0]] == opts[n - 1];
      assert PlaceAt(opts, [first], n - 1, 0) == [first + [n - 1]];
      assert first + [n - 1] == seq(n, k => k);
    } else {
      assert seq(1, k => k) == [0];
    }
  }

  /**
   * The grouping loop of `main`: group 0 starts with video 0, and every later
   * video goes to the first group whose first member has its signature, or
   * to a new group when none has.
   */
  method GroupOptions<T(==)>(opts: seq<T>) returns (groups: seq<seq<nat>>)
    requires |opts| > 0
    ensures groups == FirstFit(opts)
  {
    groups := [[0]];
    for i := 1 to |opts|
      invariant groups == Grouped(opts, i)
    {
      ghost var before := groups;
      var found := false;
      for g := 0 to |groups|
        invariant groups == before && !found
        invariant PlaceAt(opts, before, i, 0) == PlaceAt(opts, before, i, g)
      {
        if opts[groups[g][0]] == opts[i] {
          groups := groups[g := groups[g] + [i]];
          found := true;
          break;
        }
      }
      if !found {
        groups := groups + [[i]];
      }
    }
  }

  /** The (audio labels, subtitle labels) pair of every video. */
  function Zip<A, B>(a: seq<A>, b: seq<B>): (r: seq<(A, B)>)
    requires |a| == |b|
    ensures |r| == |a| && forall k :: 0 <= k < |a| ==> r[k] == (a[k], b[k])
  {
    seq(|a|, k requires 0 <= k < |a| => (a[k], b[k]))
  }

  /**
   * The batches `main` hands to `condense_multi`: one batch of every video
   * when both label lists are all equal, the first-fit groups otherwise.
   */
  function Batches<L(==)>(audioOpts: seq<L>, subOpts: seq<L>): (r: seq<seq<nat>>)
    requires |audioOpts| == |subOpts| > 0
    ensures WellFormed(r, |audioOpts|)
  {
    if CheckAllEqual(audioOpts) == Some(true) && CheckAllEqual(subOpts) == Some(true) then
      [seq(|audioOpts|, k => k)]
    else FirstFit(Zip(audioOpts, subOpts))
  }

  /**
   * The all-equal shortcut is the one-group case of the grouping: it is taken
   * exactly when all the pairs are equal, and either way the batches are the
   * first-fit groups of the pairs.
   */
  lemma BatchesAreFirstFit<L>(audioOpts: seq<L>, subOpts: seq<L>)
    requires |audioOpts| == |subOpts| > 0
    ensures var pairs := Zip(audioOpts, subOpts);
      (CheckAllEqual(audioOpts) == Some(true) && CheckAllEqual(subOpts) == Some(true) <==>
        forall k :: 0 <= k < |pairs| ==> pairs[k] == pairs[0])
    ensures Batches(audioOpts, subOpts) == FirstFit(Zip(audioOpts, subOpts))
  {
    var pairs := Zip(audioOpts, subOpts);
    CheckAllEqualIff(audioOpts);
    CheckAllEqualIff(subOpts);
    if forall k :: 0 <= k < |pairs| ==> pairs[k] == pairs[0] {
      AllEqualOneGroup(pairs, |pairs|);
    } else {
      var k :| 0 <= k < |pairs| && pairs[k] != pairs[0];
      assert audioOpts[k] != audioOpts[0] || subOpts[k] != subOpts[0];
    }
  }

  /** Every video is in some batch. */
  lemma BatchesCoverAll<L>(audioOpts: seq<L>, subOpts: seq<L>)
    requires |audioOpts| == |subOpts| > 0
    ensures forall k :: 0 <= k < |audioOpts| ==> InSome(Batches(audioOpts, subOpts), k)
  {
    BatchesAreFirstFit(audioOpts, subOpts);
    GroupedIsGrouping(Zip(audioOpts, subOpts), |audioOpts|);
  }
}
