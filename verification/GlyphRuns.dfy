/** Runs of set flags, merged over short gaps (desktop/tenir_capture/caption_box.py). */
module GlyphRuns {
  /** A half-open stretch [start, end). */
  datatype Run = Run(start: nat, end: nat)

  /** `flatnonzero`: where the flags are set. */
  function Set(flags: seq<bool>): (r: seq<nat>)
    ensures forall k :: 0 <= k < |r| ==> r[k] < |flags| && flags[r[k]]
    ensures forall j, k :: 0 <= j < k < |r| ==> r[j] < r[k]
    ensures forall i :: 0 <= i < |flags| && flags[i] ==> i in r
  {
    if |flags| == 0 then [] else
      var n := |flags| - 1;
      var front := Set(flags[..n]);
      assert forall i :: 0 <= i < n ==> flags[..n][i] == flags[i];
      if flags[n] then front + [n] else front
  }

  predicate BreaksAfter(idx: seq<nat>, gap: nat, b: nat) {
    b + 1 < |idx| && idx[b + 1] - idx[b] > gap + 1
  }

  /** The places in `idx` behind which a gap is too wide to merge over. */
  function Breaks(idx: seq<nat>, gap: nat, upTo: nat): (r: seq<nat>)
    requires upTo <= |idx|
    ensures forall k :: 0 <= k < |r| ==> r[k] < upTo && BreaksAfter(idx, gap, r[k])
    ensures forall j, k :: 0 <= j < k < |r| ==> r[j] < r[k]
    ensures forall b :: 0 <= b < upTo && BreaksAfter(idx, gap, b) ==> b in r
  {
    if upTo == 0 then [] else
      var front := Breaks(idx, gap, upTo - 1);
      if BreaksAfter(idx, gap, upTo - 1) then front + [upTo - 1] else front
  }

  /** Where the k-th run begins and ends within `idx`, by the breaks around it. */
  function From(breaks: seq<nat>, k: nat): nat
    requires k <= |breaks|
  {
    if k == 0 then 0 else breaks[k - 1] + 1
  }

  function To(breaks: seq<nat>, size: nat, k: nat): nat
    requires k <= |breaks| && size > 0
  {
    if k == |breaks| then size - 1 else breaks[k]
  }

  /** `_runs`: from each break to the next. */
  function Runs(flags: seq<bool>, gap: nat): (r: seq<Run>)
    ensures |Set(flags)| == 0 ==> |r| == 0
    ensures |Set(flags)| > 0 ==> |r| == |Breaks(Set(flags), gap, |Set(flags)|)| + 1
  {
    var idx := Set(flags);
    if |idx| == 0 then [] else
      var breaks := Breaks(idx, gap, |idx|);
      seq(|breaks| + 1, k requires 0 <= k <= |breaks| => Run(idx[From(breaks, k)], idx[To(breaks, |idx|, k)] + 1))
  }

  /** Ordered, disjoint, further apart than the gap, each beginning and ending on a set flag. */
  ghost predicate WellFormed(flags: seq<bool>, gap: nat, runs: seq<Run>) {
    && (forall k :: 0 <= k < |runs| ==>
         runs[k].start < runs[k].end <= |flags| && flags[runs[k].start] && flags[runs[k].end - 1])
    && (forall j, k :: 0 <= j < k < |runs| ==> runs[j].end + gap < runs[k].start)
  }

  predicate Inside(run: Run, i: nat) { run.start <= i < run.end }

  /** From `from` on, `gap` + 1 flags in a row are unset. */
  ghost predicate Hole(flags: seq<bool>, from: nat, gap: nat) {
    forall k :: from <= k <= from + gap && k < |flags| ==> !flags[k]
  }

  /** A stretch of more than `gap` unset flags lies between i and j. */
  ghost predicate WideGap(flags: seq<bool>, gap: nat, i: nat, j: nat) {
    exists a: nat :: i < a && a + gap < j && Hole(flags, a, gap)
  }

  // ---- Runs by their positions and breaks ----------------------------------

  ghost predicate Ascends(s: seq<nat>) { forall j, k :: 0 <= j < k < |s| ==> s[j] < s[k] }

  ghost predicate IsSet(flags: seq<bool>, idx: seq<nat>) {
    && Ascends(idx) && (forall k :: 0 <= k < |idx| ==> idx[k] < |flags| && flags[idx[k]])
    && (forall i :: 0 <= i < |flags| && flags[i] ==> i in idx)
  }

  ghost predicate IsBreaks(idx: seq<nat>, gap: nat, breaks: seq<nat>) {
    && Ascends(breaks) && (forall k :: 0 <= k < |breaks| ==> BreaksAfter(idx, gap, breaks[k]))
    && (forall b :: 0 <= b < |idx| && BreaksAfter(idx, gap, b) ==> b in breaks)
  }

  ghost predicate RunsOf(idx: seq<nat>, breaks: seq<nat>, runs: seq<Run>) {
    && |idx| > 0 && |runs| == |breaks| + 1
    && (forall k :: 0 <= k < |runs| ==> From(breaks, k) < |idx| && To(breaks, |idx|, k) < |idx|)
    && (forall k :: 0 <= k < |runs| ==> runs[k] == Run(idx[From(breaks, k)], idx[To(breaks, |idx|, k)] + 1))
  }

  /** The k-th run begins no later than it ends, and ends before any later one begins. */
  lemma FromTo(idx: seq<nat>, gap: nat, breaks: seq<nat>, j: nat, k: nat)
    requires |idx| > 0 && IsBreaks(idx, gap, breaks) && j <= k <= |breaks|
    ensures From(breaks, k) <= To(breaks, |idx|, k) < |idx|
    ensures j < k ==> To(breaks, |idx|, j) < From(breaks, k) && BreaksAfter(idx, gap, To(breaks, |idx|, j))
  {
    if k > 0 { assert BreaksAfter(idx, gap, breaks[k - 1]); }
    if k < |breaks| { assert BreaksAfter(idx, gap, breaks[k]); }
    if j < k - 1 { assert breaks[j] < breaks[k - 1]; }
  }

  lemma RunsApart(idx: seq<nat>, gap: nat, breaks: seq<nat>, runs: seq<Run>, j: nat, k: nat)
    requires Ascends(idx) && IsBreaks(idx, gap, breaks) && RunsOf(idx, breaks, runs) && j < k < |runs|
    ensures runs[j].end + gap < runs[k].start
  {
    FromTo(idx, gap, breaks, j, k);
    var b, f := To(breaks, |idx|, j), From(breaks, k);
    assert idx[b + 1] - idx[b] > gap + 1;
    assert b + 1 < f ==> idx[b + 1] < idx[f];
  }

  lemma RunsAreWellFormed(flags: seq<bool>, gap: nat, idx: seq<nat>, breaks: seq<nat>, runs: seq<Run>)
    requires IsSet(flags, idx) && IsBreaks(idx, gap, breaks) && RunsOf(idx, breaks, runs)
    ensures WellFormed(flags, gap, runs)
  {
    forall k | 0 <= k < |runs|
      ensures runs[k].start < runs[k].end <= |flags| && flags[runs[k].start] && flags[runs[k].end - 1]
    {
      FromTo(idx, gap, breaks, k, k);
      var f, t := From(breaks, k), To(breaks, |idx|, k);
      assert f < t ==> idx[f] < idx[t];
    }
    forall j, k | 0 <= j < k < |runs| ensures runs[j].end + gap < runs[k].start {
      RunsApart(idx, gap, breaks, runs, j, k);
    }
  }

  /** Every position is inside a run: the one after the last break before it. */
  lemma PositionInside(idx: seq<nat>, gap: nat, breaks: seq<nat>, runs: seq<Run>, p: nat) returns (k: nat)
    requires Ascends(idx) && IsBreaks(idx, gap, breaks) && RunsOf(idx, breaks, runs) && p < |idx|
    ensures k < |runs| && Inside(runs[k], idx[p])
  {
    k := 0;
    while k < |breaks| && breaks[k] < p
      invariant k <= |breaks| && From(breaks, k) <= p
    {
      k := k + 1;
    }
    var f, t := From(breaks, k), To(breaks, |idx|, k);
    assert p <= t;
    assert f < p ==> idx[f] < idx[p];
    assert p < t ==> idx[p] < idx[t];
  }

  /** Nothing is set between one run and the next. */
  lemma GapBetween(flags: seq<bool>, gap: nat, idx: seq<nat>, breaks: seq<nat>, runs: seq<Run>, k: nat)
    requires IsSet(flags, idx) && IsBreaks(idx, gap, breaks) && RunsOf(idx, breaks, runs) && k + 1 < |runs|
    ensures Hole(flags, runs[k].end, gap) && runs[k].end + gap < runs[k + 1].start
  {
    RunsApart(idx, gap, breaks, runs, k, k + 1);
    var b := breaks[k];
    assert BreaksAfter(idx, gap, b);
    forall n | runs[k].end <= n <= runs[k].end + gap && n < |flags| ensures !flags[n] {
      forall p | 0 <= p < |idx| ensures idx[p] != n {
        assert p < b ==> idx[p] < idx[b];
        assert p > b + 1 ==> idx[p] > idx[b + 1];
      }
    }
  }

  /** Within a run there is no hole. */
  lemma RunUnbroken(flags: seq<bool>, gap: nat, idx: seq<nat>, breaks: seq<nat>, runs: seq<Run>, k: nat, a: nat)
    requires IsSet(flags, idx) && IsBreaks(idx, gap, breaks) && RunsOf(idx, breaks, runs) && k < |runs|
    requires runs[k].start < a && a + gap < runs[k].end - 1
    ensures !Hole(flags, a, gap)
  {
    FromTo(idx, gap, breaks, k, k);
    var f, t := From(breaks, k), To(breaks, |idx|, k);
    var p := f;
    while idx[p + 1] < a
      invariant f <= p < t && idx[p] < a
      decreases t - p
    {
      p := p + 1;
    }
    NoBreakInside(idx, gap, breaks, k, p);
    assert flags[idx[p + 1]] && idx[p + 1] <= idx[p] + gap + 1;
  }

  lemma NoBreakInside(idx: seq<nat>, gap: nat, breaks: seq<nat>, k: nat, p: nat)
    requires |idx| > 0 && IsBreaks(idx, gap, breaks) && k <= |breaks| && From(breaks, k) <= p < To(breaks, |idx|, k)
    ensures !BreaksAfter(idx, gap, p)
  {
    forall n | 0 <= n < |breaks| ensures breaks[n] != p {
      assert n < k - 1 ==> breaks[n] < breaks[k - 1];
      assert k < n ==> breaks[k] < breaks[n];
    }
  }

  lemma ShareOf(flags: seq<bool>, gap: nat, idx: seq<nat>, breaks: seq<nat>, runs: seq<Run>, i: nat, j: nat)
    requires IsSet(flags, idx) && IsBreaks(idx, gap, breaks) && RunsOf(idx, breaks, runs)
    requires i < j < |flags| && flags[i] && flags[j]
    ensures Shared(runs, i, j) <==> !WideGap(flags, gap, i, j)
  {
    var p :| 0 <= p < |idx| && idx[p] == i;
    var q :| 0 <= q < |idx| && idx[q] == j;
    var k := PositionInside(idx, gap, breaks, runs, p);
    var l := PositionInside(idx, gap, breaks, runs, q);
    RunsAreWellFormed(flags, gap, idx, breaks, runs);
    if k == l {
      assert Shared(runs, i, j);
      forall a: nat | i < a && a + gap < j ensures !Hole(flags, a, gap) {
        RunUnbroken(flags, gap, idx, breaks, runs, k, a);
      }
    } else {
      ApartShareNot(flags, gap, runs, k, l, i, j);
      GapBetween(flags, gap, idx, breaks, runs, k);
      assert WideGap(flags, gap, i, j);
    }
  }

  lemma ApartShareNot(flags: seq<bool>, gap: nat, runs: seq<Run>, k: nat, l: nat, i: nat, j: nat)
    requires WellFormed(flags, gap, runs) && k < |runs| && l < |runs| && k != l && i < j
    requires Inside(runs[k], i) && Inside(runs[l], j)
    ensures k < l && runs[k + 1].start <= j && !Shared(runs, i, j)
  {
    assert forall n :: 0 <= n < |runs| && Inside(runs[n], i) ==> n == k;
  }

  /** Some run has both. */
  ghost predicate Shared(runs: seq<Run>, i: nat, j: nat) {
    exists k :: 0 <= k < |runs| && Inside(runs[k], i) && Inside(runs[k], j)
  }

  // ---- What `_runs` gives --------------------------------------------------

  lemma {:induction false} RunsByBreaks(flags: seq<bool>, gap: nat)
    requires |Set(flags)| > 0
    ensures IsSet(flags, Set(flags)) && IsBreaks(Set(flags), gap, Breaks(Set(flags), gap, |Set(flags)|))
    ensures RunsOf(Set(flags), Breaks(Set(flags), gap, |Set(flags)|), Runs(flags, gap))
  {
    var idx := Set(flags);
    var breaks := Breaks(idx, gap, |idx|);
    BreaksInside(idx, gap, breaks);
  }

  lemma BreaksInside(idx: seq<nat>, gap: nat, breaks: seq<nat>)
    requires |idx| > 0 && IsBreaks(idx, gap, breaks)
    ensures forall k :: 0 <= k <= |breaks| ==> From(breaks, k) < |idx| && To(breaks, |idx|, k) < |idx|
  {
    forall k | 0 <= k <= |breaks| ensures From(breaks, k) < |idx| && To(breaks, |idx|, k) < |idx| {
      FromTo(idx, gap, breaks, k, k);
    }
  }

  /** The runs of flags are ordered and apart, begin and end on set flags, and hold every set flag. */
  lemma {:induction false} RunsWellFormed(flags: seq<bool>, gap: nat)
    ensures WellFormed(flags, gap, Runs(flags, gap))
    ensures forall i :: 0 <= i < |flags| && flags[i] ==>
              exists k :: 0 <= k < |Runs(flags, gap)| && Inside(Runs(flags, gap)[k], i)
  {
    var idx, runs := Set(flags), Runs(flags, gap);
    if |idx| > 0 {
      var breaks := Breaks(idx, gap, |idx|);
      RunsByBreaks(flags, gap);
      RunsAreWellFormed(flags, gap, idx, breaks, runs);
      forall i | 0 <= i < |flags| && flags[i] ensures exists k :: 0 <= k < |runs| && Inside(runs[k], i) {
        var p :| 0 <= p < |idx| && idx[p] == i;
        var k := PositionInside(idx, gap, breaks, runs, p);
      }
    }
  }

  /** Two set flags share a run exactly when no stretch of more than `gap` unset flags lies between them. */
  lemma {:induction false} ShareRunIff(flags: seq<bool>, gap: nat, i: nat, j: nat)
    requires i < j < |flags| && flags[i] && flags[j]
    ensures Shared(Runs(flags, gap), i, j) <==> !WideGap(flags, gap, i, j)
  {
    var idx := Set(flags);
    assert i in idx;
    RunsByBreaks(flags, gap);
    ShareOf(flags, gap, idx, Breaks(idx, gap, |idx|), Runs(flags, gap), i, j);
  }
}
