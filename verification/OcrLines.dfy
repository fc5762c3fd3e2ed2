/**
 * Grouping the text segments of an image into lines (ocr/server.py): segments join the first row
 * they overlap, and each row is split where the gap between segments is too wide for a word space.
 */
module OcrLines {
  import opened Prelude

  datatype TextSegment = TextSegment(y0: real, y1: real, x0: real, x1: real, text: string, score: real)

  function MaxReal(a: real, b: real): real { if a < b then b else a }

  function MinReal(a: real, b: real): real { if b < a then b else a }

  predicate ByMiddle(a: TextSegment, b: TextSegment) { (a.y0 + a.y1) / 2.0 <= (b.y0 + b.y1) / 2.0 }

  predicate ByLeft(a: TextSegment, b: TextSegment) { a.x0 <= b.x0 }

  function Top(row: seq<TextSegment>): real
    requires |row| > 0
  {
    if |row| == 1 then row[0].y0 else MinReal(Top(row[..|row| - 1]), row[|row| - 1].y0)
  }

  function Bottom(row: seq<TextSegment>): real
    requires |row| > 0
  {
    if |row| == 1 then row[0].y1 else MaxReal(Bottom(row[..|row| - 1]), row[|row| - 1].y1)
  }

  /** The right edge of the widest reach so far. */
  function Right(run: seq<TextSegment>): real
    requires |run| > 0
  {
    if |run| == 1 then run[0].x1 else MaxReal(Right(run[..|run| - 1]), run[|run| - 1].x1)
  }

  // ---- Rows ----------------------------------------------------------------

  ghost predicate NonEmpty<T>(rows: seq<seq<T>>) { forall k :: 0 <= k < |rows| ==> |rows[k]| > 0 }

  /** A segment joins a row when it overlaps the row's span by more than half the shorter of the two. */
  predicate Joins(row: seq<TextSegment>, s: TextSegment)
    requires |row| > 0
  {
    MinReal(s.y1, Bottom(row)) - MaxReal(s.y0, Top(row)) > 0.5 * MinReal(s.y1 - s.y0, Bottom(row) - Top(row))
  }

  /** The rows with one more segment placed: in the first row it joins, or a row of its own. */
  ghost function Place(rows: seq<seq<TextSegment>>, s: TextSegment): (r: seq<seq<TextSegment>>)
    requires NonEmpty(rows)
    ensures NonEmpty(r)
    decreases |rows|
  {
    if |rows| == 0 then [[s]]
    else if Joins(rows[0], s) then [rows[0] + [s]] + rows[1..]
    else [rows[0]] + Place(rows[1..], s)
  }

  ghost function PlaceAll(segments: seq<TextSegment>): (r: seq<seq<TextSegment>>)
    ensures NonEmpty(r)
  {
    if |segments| == 0 then [] else Place(PlaceAll(segments[..|segments| - 1]), segments[|segments| - 1])
  }

  function Pool(rows: seq<seq<TextSegment>>): multiset<TextSegment> {
    if |rows| == 0 then multiset{} else multiset(rows[0]) + Pool(rows[1..])
  }

  /** Where a segment goes: the first row it joins. */
  lemma {:induction false} PlacedInFirst(rows: seq<seq<TextSegment>>, s: TextSegment, k: nat)
    requires NonEmpty(rows) && k < |rows| && Joins(rows[k], s) && forall j :: 0 <= j < k ==> !Joins(rows[j], s)
    ensures Place(rows, s) == rows[k := rows[k] + [s]]
    decreases |rows|
  {
    if k > 0 {
      var tail := rows[1..];
      assert forall j :: 0 <= j < k - 1 ==> tail[j] == rows[j + 1];
      PlacedInFirst(tail, s, k - 1);
      assert rows[k := rows[k] + [s]] == [rows[0]] + tail[k - 1 := tail[k - 1] + [s]];
    } else {
      assert rows[0 := rows[0] + [s]] == [rows[0] + [s]] + rows[1..];
    }
  }

  lemma {:induction false} PlacedAlone(rows: seq<seq<TextSegment>>, s: TextSegment)
    requires NonEmpty(rows) && forall j :: 0 <= j < |rows| ==> !Joins(rows[j], s)
    ensures Place(rows, s) == rows + [[s]]
    decreases |rows|
  {
    if |rows| > 0 {
      var tail := rows[1..];
      assert forall j :: 0 <= j < |tail| ==> tail[j] == rows[j + 1];
      PlacedAlone(tail, s);
      assert rows + [[s]] == [rows[0]] + (tail + [[s]]);
    } else {
      assert rows + [[s]] == [[s]];
    }
  }

  lemma {:induction false} PlaceKeeps(rows: seq<seq<TextSegment>>, s: TextSegment)
    requires NonEmpty(rows)
    ensures Pool(Place(rows, s)) == Pool(rows) + multiset{s}
    decreases |rows|
  {
    var t := Place(rows, s);
    if |rows| == 0 {
      assert |t[1..]| == 0;
    } else if Joins(rows[0], s) {
      assert t[1..] == rows[1..];
    } else {
      PlaceKeeps(rows[1..], s);
      assert t[1..] == Place(rows[1..], s);
    }
  }

  lemma {:induction false} PlaceAllKeeps(segments: seq<TextSegment>)
    ensures Pool(PlaceAll(segments)) == multiset(segments)
  {
    if |segments| > 0 {
      var front := segments[..|segments| - 1];
      PlaceAllKeeps(front);
      PlaceKeeps(PlaceAll(front), segments[|segments| - 1]);
      assert segments == front + [segments[|segments| - 1]];
    }
  }

  // ---- Splitting a row -----------------------------------------------------

  /** The runs with one more segment: a new run after too wide a gap, else the last run goes on. */
  ghost function Extend(runs: seq<seq<TextSegment>>, s: TextSegment, gap: real): (r: seq<seq<TextSegment>>)
    requires NonEmpty(runs)
    ensures NonEmpty(r) && |r| > 0
  {
    if |runs| == 0 || s.x0 - Right(runs[|runs| - 1]) > gap then runs + [[s]]
    else runs[|runs| - 1 := runs[|runs| - 1] + [s]]
  }

  ghost function Split(row: seq<TextSegment>, gap: real): (r: seq<seq<TextSegment>>)
    ensures NonEmpty(r) && (|row| > 0 ==> |r| > 0)
  {
    if |row| == 0 then [] else Extend(Split(row[..|row| - 1], gap), row[|row| - 1], gap)
  }

  function Flatten(runs: seq<seq<TextSegment>>): seq<TextSegment> {
    if |runs| == 0 then [] else Flatten(runs[..|runs| - 1]) + runs[|runs| - 1]
  }

  lemma {:induction false} FlattenExtend(runs: seq<seq<TextSegment>>, s: TextSegment, gap: real)
    requires NonEmpty(runs)
    ensures Flatten(Extend(runs, s, gap)) == Flatten(runs) + [s]
  {
    var t, n := Extend(runs, s, gap), |runs|;
    if |t| > n {
      assert t[..n] == runs && t[n] == [s];
    } else {
      assert t[..n - 1] == runs[..n - 1] && t[n - 1] == runs[n - 1] + [s];
      assert Flatten(runs[..n - 1]) + (runs[n - 1] + [s]) == (Flatten(runs[..n - 1]) + runs[n - 1]) + [s];
    }
  }

  /** The split only cuts: put end to end, its runs are the row. */
  lemma {:induction false} SplitCuts(row: seq<TextSegment>, gap: real)
    ensures Flatten(Split(row, gap)) == row
  {
    if |row| > 0 {
      var front, s := row[..|row| - 1], row[|row| - 1];
      SplitCuts(front, gap);
      FlattenExtend(Split(front, gap), s, gap);
      assert row == front + [s];
    }
  }

  /** Which run of the split the k-th segment of the row is in. */
  ghost function RunOf(row: seq<TextSegment>, gap: real, k: nat): (r: nat)
    requires k < |row|
    ensures r < |Split(row, gap)|
  {
    SplitGrows(row, gap);
    if k == |row| - 1 then |Split(row, gap)| - 1 else RunOf(row[..|row| - 1], gap, k)
  }

  lemma {:induction false} SplitGrows(row: seq<TextSegment>, gap: real)
    requires |row| > 0
    ensures |Split(row[..|row| - 1], gap)| <= |Split(row, gap)| <= |Split(row[..|row| - 1], gap)| + 1
  {}

  /** One gap, from the k-th segment to the later l-th one, of at most `gap`. */
  predicate Near(row: seq<TextSegment>, gap: real, k: nat, l: nat)
    requires k < |row| && l < |row|
  {
    if k <= l then row[l].x0 - row[k].x1 <= gap else row[k].x0 - row[l].x1 <= gap
  }

  /** A chain of such gaps connects the k-th segment to the l-th. */
  ghost predicate Chain(row: seq<TextSegment>, gap: real, chain: seq<nat>, k: nat, l: nat) {
    && |chain| > 0 && chain[0] == k && chain[|chain| - 1] == l && (forall i :: 0 <= i < |chain| ==> chain[i] < |row|)
    && (forall i :: 0 < i < |chain| ==> Near(row, gap, chain[i - 1], chain[i]))
  }

  ghost predicate Connected(row: seq<TextSegment>, gap: real, k: nat, l: nat) {
    exists chain :: Chain(row, gap, chain, k, l)
  }

  // ---- Why the split is right ----------------------------------------------

  /** An earlier run keeps its place when the runs are extended, and only the last one grows. */
  lemma {:induction false} EarlierRun(runs: seq<seq<TextSegment>>, s: TextSegment, gap: real, r: nat)
    requires NonEmpty(runs) && r < |runs|
    ensures r < |Extend(runs, s, gap)| && Extend(runs, s, gap)[..r] == runs[..r]
    ensures |Flatten(runs[..r + 1])| <= |Flatten(Extend(runs, s, gap)[..r + 1])|
  {
    var t := Extend(runs, s, gap);
    if r + 1 < |runs| || |t| > |runs| {
      assert t[..r + 1] == runs[..r + 1];
    } else {
      FlattenExtend(runs, s, gap);
      assert t[..r + 1] == t && runs[..r + 1] == runs;
    }
  }

  /** The last run ends the row and is not empty. */
  lemma {:induction false} LastRunEnds(runs: seq<seq<TextSegment>>)
    requires NonEmpty(runs) && |runs| > 0
    ensures |Flatten(runs[..|runs| - 1])| < |Flatten(runs)| && runs[..|runs|] == runs
  {}

  /** RunOf names the run at the segment's place in the row: the runs before it end by k, it ends after. */
  lemma {:induction false} RunOfHolds(row: seq<TextSegment>, gap: real, k: nat)
    requires k < |row|
    ensures var r := RunOf(row, gap, k);
            |Flatten(Split(row, gap)[..r])| <= k < |Flatten(Split(row, gap)[..r + 1])|
  {
    var n := |row| - 1;
    if k == n {
      SplitCuts(row, gap);
      LastRunEnds(Split(row, gap));
    } else {
      RunOfHolds(row[..n], gap, k);
      EarlierRun(Split(row[..n], gap), row[n], gap, RunOf(row[..n], gap, k));
    }
  }

  lemma {:induction false} RunsAscend(row: seq<TextSegment>, gap: real, k: nat, l: nat)
    requires k <= l < |row|
    ensures RunOf(row, gap, k) <= RunOf(row, gap, l)
  {
    if l < |row| - 1 {
      RunsAscend(row[..|row| - 1], gap, k, l);
    } else if k < l {
      SplitGrows(row, gap);
    }
  }

  /** The right edge of the last run. */
  ghost function Reach(row: seq<TextSegment>, gap: real): real
    requires |row| > 0
  {
    Right(Split(row, gap)[|Split(row, gap)| - 1])
  }

  /** One more segment is a run of its own, or joins the last run and may move its right edge. */
  lemma {:induction false} ReachNext(row: seq<TextSegment>, gap: real, front: seq<TextSegment>, s: TextSegment)
    requires |front| > 0 && row == front + [s]
    ensures |Split(row, gap)| == |Split(front, gap)| ==> Reach(row, gap) == MaxReal(Reach(front, gap), s.x1)
    ensures |Split(row, gap)| != |Split(front, gap)| ==> Reach(row, gap) == s.x1
  {
    assert row[..|row| - 1] == front;
    var runs, t := Split(front, gap), Split(row, gap);
    var last := t[|t| - 1];
    assert last[|last| - 1] == s;
    if |t| == |runs| { assert last[..|last| - 1] == runs[|runs| - 1]; }
  }

  /** Every segment of the last run ends by its right edge. */
  lemma {:induction false} LastRunReach(row: seq<TextSegment>, gap: real, k: nat)
    requires k < |row| && RunOf(row, gap, k) == |Split(row, gap)| - 1
    ensures row[k].x1 <= Reach(row, gap)
  {
    var n := |row| - 1;
    var front := row[..n];
    if n > 0 {
      assert row == front + [row[n]];
      ReachNext(row, gap, front, row[n]);
      if k < n { LastRunReach(front, gap, k); }
    }
  }

  /** Some segment of the last run ends at its right edge. */
  lemma {:induction false} LastRunReached(row: seq<TextSegment>, gap: real) returns (k: nat)
    requires |row| > 0
    ensures k < |row| && RunOf(row, gap, k) == |Split(row, gap)| - 1
    ensures row[k].x1 == Reach(row, gap)
  {
    var n := |row| - 1;
    var front := row[..n];
    k := n;
    if n > 0 {
      assert row == front + [row[n]];
      ReachNext(row, gap, front, row[n]);
      if Reach(row, gap) != row[n].x1 { k := LastRunReached(front, gap); }
    }
  }

  lemma SortedPrefix(row: seq<TextSegment>, front: seq<TextSegment>)
    requires SortedBy(row, ByLeft) && |row| > 0 && front == row[..|row| - 1]
    ensures SortedBy(front, ByLeft)
  {}

  /** Segments of different runs lie further apart than the gap, however many runs are between. */
  lemma {:induction false} RunsApart(row: seq<TextSegment>, gap: real, k: nat, l: nat)
    requires SortedBy(row, ByLeft) && k < l < |row| && RunOf(row, gap, k) < RunOf(row, gap, l)
    ensures row[l].x0 - row[k].x1 > gap
  {
    var n := |row| - 1;
    var front := row[..n];
    SortedPrefix(row, front);
    if l < n {
      RunsApart(front, gap, k, l);
    } else if RunOf(front, gap, k) < |Split(front, gap)| - 1 {
      LastIsIn(front, gap);
      RunsApart(front, gap, k, n - 1);
      assert ByLeft(row[n - 1], row[n]);
    } else {
      LastApart(row, gap, k);
    }
  }

  lemma {:induction false} LastIsIn(row: seq<TextSegment>, gap: real)
    requires |row| > 0
    ensures RunOf(row, gap, |row| - 1) == |Split(row, gap)| - 1
  {}

  /** What opens a new run lies apart from all of the run before. */
  lemma {:induction false} LastApart(row: seq<TextSegment>, gap: real, k: nat)
    requires |row| > 1 && k < |row| - 1
    requires RunOf(row[..|row| - 1], gap, k) == |Split(row[..|row| - 1], gap)| - 1 < |Split(row, gap)| - 1
    ensures row[|row| - 1].x0 - row[k].x1 > gap
  {
    LastRunReach(row[..|row| - 1], gap, k);
  }

  lemma {:induction false} Joined(row: seq<TextSegment>, gap: real, a: nat, b: nat, c: nat)
    requires Connected(row, gap, a, b) && b < |row| && c < |row| && Near(row, gap, b, c)
    ensures Connected(row, gap, a, c)
  {
    var chain :| Chain(row, gap, chain, a, b);
    assert Chain(row, gap, chain + [c], a, c);
  }

  lemma {:induction false} Reversed(row: seq<TextSegment>, gap: real, a: nat, b: nat)
    requires Connected(row, gap, a, b)
    ensures Connected(row, gap, b, a)
  {
    var chain :| Chain(row, gap, chain, a, b);
    var back := seq(|chain|, i requires 0 <= i < |chain| => chain[|chain| - 1 - i]);
    forall i | 0 < i < |back| ensures Near(row, gap, back[i - 1], back[i]) {
      assert Near(row, gap, chain[|chain| - 1 - i], chain[|chain| - i]);
    }
    assert Chain(row, gap, back, b, a);
  }

  /** A segment with an earlier one in its run is near one of those. */
  lemma {:induction false} NearEarlier(row: seq<TextSegment>, gap: real, l: nat, k: nat) returns (j: nat)
    requires k < l < |row| && RunOf(row, gap, k) == RunOf(row, gap, l)
    ensures j < l && RunOf(row, gap, j) == RunOf(row, gap, l) && Near(row, gap, j, l)
  {
    var n := |row| - 1;
    if l < n {
      j := NearEarlier(row[..n], gap, l, k);
    } else {
      j := LastRunReached(row[..n], gap);
    }
  }

  lemma {:induction false} SameRunConnected(row: seq<TextSegment>, gap: real, k: nat, l: nat)
    requires k <= l < |row| && RunOf(row, gap, k) == RunOf(row, gap, l)
    ensures Connected(row, gap, k, l)
    decreases k + l
  {
    if k == l {
      assert Chain(row, gap, [k], k, k);
    } else {
      var j := NearEarlier(row, gap, l, k);
      if j < k {
        SameRunConnected(row, gap, j, k);
        Reversed(row, gap, j, k);
      } else {
        SameRunConnected(row, gap, k, j);
      }
      Joined(row, gap, k, j, l);
    }
  }

  lemma {:induction false} ChainSameRun(row: seq<TextSegment>, gap: real, chain: seq<nat>, i: nat)
    requires SortedBy(row, ByLeft) && i < |chain| && Chain(row, gap, chain, chain[0], chain[|chain| - 1])
    ensures chain[0] < |row| && chain[i] < |row| && RunOf(row, gap, chain[i]) == RunOf(row, gap, chain[0])
  {
    if i > 0 {
      ChainSameRun(row, gap, chain, i - 1);
      var a, b := chain[i - 1], chain[i];
      assert Near(row, gap, a, b);
      if a <= b {
        RunsAscend(row, gap, a, b);
        if RunOf(row, gap, a) < RunOf(row, gap, b) { RunsApart(row, gap, a, b); }
      } else {
        RunsAscend(row, gap, b, a);
        if RunOf(row, gap, b) < RunOf(row, gap, a) { RunsApart(row, gap, b, a); }
      }
    }
  }

  /** Two segments of a row end in the same line exactly when a chain of gaps no wider than `gap` connects them. */
  lemma {:induction false} SameLineIff(row: seq<TextSegment>, gap: real, k: nat, l: nat)
    requires SortedBy(row, ByLeft) && k < |row| && l < |row|
    ensures RunOf(row, gap, k) == RunOf(row, gap, l) <==> Connected(row, gap, k, l)
  {
    if RunOf(row, gap, k) == RunOf(row, gap, l) {
      if k <= l {
        SameRunConnected(row, gap, k, l);
      } else {
        SameRunConnected(row, gap, l, k);
        Reversed(row, gap, l, k);
      }
    }
    if Connected(row, gap, k, l) {
      var chain :| Chain(row, gap, chain, k, l);
      ChainSameRun(row, gap, chain, |chain| - 1);
    }
  }

  // ---- The code ------------------------------------------------------------

  /** The gap that splits a row: so many heights of the row. */
  function GapOf(row: seq<TextSegment>, rowGap: real): real
    requires |row| > 0
  {
    rowGap * (Bottom(row) - Top(row))
  }

  lemma {:induction false} SplitNext(row: seq<TextSegment>, gap: real, k: nat)
    requires k < |row|
    ensures Split(row[..k + 1], gap) == Extend(Split(row[..k], gap), row[k], gap)
  {
    assert row[..k + 1][..k] == row[..k] && row[..k + 1][k] == row[k];
  }

  /** `_split_at_gaps`, its height and gap known. */
  method SplitAtGaps(row: seq<TextSegment>, gap: real) returns (runs: seq<seq<TextSegment>>)
    requires |row| > 0
    ensures runs == Split(row, gap)
  {
    runs := [[row[0]]];
    assert |row[..1][..0]| == 0 && row[..1][0] == row[0];
    for k := 1 to |row|
      invariant runs == Split(row[..k], gap)
    {
      SplitNext(row, gap, k);
      var last := runs[|runs| - 1];
      if row[k].x0 - Right(last) > gap {
        runs := runs + [[row[k]]];
      } else {
        runs := runs[|runs| - 1 := last + [row[k]]];
      }
    }
    assert row[..|row|] == row;
  }

  lemma OrdersTotal()
    ensures TotalPreorder(ByMiddle) && TotalPreorder(ByLeft)
  {}

  /** The rows of `group_lines`: top to bottom, each segment to the first row it joins. */
  method GroupRows(sorted: seq<TextSegment>) returns (rows: seq<seq<TextSegment>>)
    ensures rows == PlaceAll(sorted)
  {
    rows := [];
    assert sorted[..0] == [];
    for i := 0 to |sorted|
      invariant rows == PlaceAll(sorted[..i])
    {
      assert sorted[..i + 1][..i] == sorted[..i];
      var s, k, placed := sorted[i], 0, false;
      while k < |rows| && !placed
        invariant k <= |rows| && NonEmpty(rows)
        invariant !placed ==> rows == PlaceAll(sorted[..i]) && forall j :: 0 <= j < k ==> !Joins(rows[j], s)
        invariant placed ==> rows == Place(PlaceAll(sorted[..i]), s)
        decreases |rows| - k, !placed
      {
        if Joins(rows[k], s) {
          PlacedInFirst(rows, s, k);
          rows := rows[k := rows[k] + [s]];
          placed := true;
        } else {
          k := k + 1;
        }
      }
      if !placed {
        PlacedAlone(rows, s);
        rows := rows + [[s]];
      }
    }
    assert sorted[..|sorted|] == sorted;
  }

  lemma {:induction false} FlattenPool(runs: seq<seq<TextSegment>>)
    ensures multiset(Flatten(runs)) == Pool(runs)
  {
    if |runs| > 0 {
      var front, last := runs[..|runs| - 1], runs[|runs| - 1];
      FlattenPool(front);
      PoolAppend(front, [last]);
      assert runs == front + [last];
    }
  }

  lemma {:induction false} PoolAppend(a: seq<seq<TextSegment>>, b: seq<seq<TextSegment>>)
    ensures Pool(a + b) == Pool(a) + Pool(b)
    decreases |a|
  {
    if |a| == 0 {
      assert a + b == b;
    } else {
      PoolAppend(a[1..], b);
      assert (a + b)[1..] == a[1..] + b;
    }
  }

  /** The lines of the rows in turn: each row left to right, cut at its wide gaps. */
  ghost function LinesOf(rows: seq<seq<TextSegment>>, rowGap: real): (r: seq<seq<TextSegment>>)
    requires NonEmpty(rows) && TotalPreorder(ByLeft)
    ensures NonEmpty(r)
  {
    if |rows| == 0 then [] else LinesOf(rows[..|rows| - 1], rowGap) + RowLines(rows[|rows| - 1], rowGap)
  }

  /** One row left to right, cut at its wide gaps. */
  ghost function RowLines(row: seq<TextSegment>, rowGap: real): (r: seq<seq<TextSegment>>)
    requires |row| > 0 && TotalPreorder(ByLeft)
    ensures NonEmpty(r)
  {
    var sorted := Sorted(row, ByLeft);
    Split(sorted, GapOf(sorted, rowGap))
  }

  /** `top` and `bottom` are a row's highest upper edge and lowest lower one. */
  ghost predicate Spans(row: seq<TextSegment>, top: real, bottom: real) {
    && (forall k :: 0 <= k < |row| ==> top <= row[k].y0 && row[k].y1 <= bottom)
    && (exists k :: 0 <= k < |row| && row[k].y0 == top) && (exists k :: 0 <= k < |row| && row[k].y1 == bottom)
  }

  lemma {:induction false} SpanOf(row: seq<TextSegment>)
    requires |row| > 0
    ensures Spans(row, Top(row), Bottom(row))
  {
    var n := |row| - 1;
    if n > 0 {
      var front := row[..n];
      SpanOf(front);
      var a :| 0 <= a < n && front[a].y0 == Top(front);
      var b :| 0 <= b < n && front[b].y1 == Bottom(front);
      assert row[a].y0 == Top(front) && row[b].y1 == Bottom(front) && row[n].y0 >= Top(row);
      forall k | 0 <= k < |row| ensures Top(row) <= row[k].y0 && row[k].y1 <= Bottom(row) {
        assert k < n ==> row[k] == front[k];
      }
    } else {
      assert row[0].y0 == Top(row) && row[0].y1 == Bottom(row);
    }
  }

  lemma SpanUnique(row: seq<TextSegment>, top: real, bottom: real, up: real, down: real)
    requires Spans(row, top, bottom) && Spans(row, up, down)
    ensures top == up && bottom == down
  {}

  /** A stretch in the height of both a segment and a row, longer than half the lower of the two. */
  predicate SharedHeight(s: TextSegment, top: real, bottom: real, from: real, to: real) {
    && s.y0 <= from && top <= from && to <= s.y1 && to <= bottom
    && 2.0 * (to - from) > (if bottom - top < s.y1 - s.y0 then bottom - top else s.y1 - s.y0)
  }

  /** A segment joins a row exactly when they share such a stretch, the row's height reaching from edge to edge. */
  lemma JoinsIff(row: seq<TextSegment>, s: TextSegment, top: real, bottom: real)
    requires |row| > 0 && Spans(row, top, bottom)
    ensures Joins(row, s) <==> exists from: real, to: real :: SharedHeight(s, top, bottom, from, to)
  {
    SpanOf(row);
    SpanUnique(row, top, bottom, Top(row), Bottom(row));
    if Joins(row, s) { assert SharedHeight(s, top, bottom, MaxReal(s.y0, top), MinReal(s.y1, bottom)); }
    if from: real, to: real :| SharedHeight(s, top, bottom, from, to) {
      assert MaxReal(s.y0, top) <= from && to <= MinReal(s.y1, bottom);
    }
  }

  /** A row and a segment share height so. */
  ghost predicate Shares(row: seq<TextSegment>, s: TextSegment) {
    exists top: real, bottom: real, from: real, to: real ::
      Spans(row, top, bottom) && SharedHeight(s, top, bottom, from, to)
  }

  ghost predicate FirstSharing(rows: seq<seq<TextSegment>>, s: TextSegment, k: nat) {
    k < |rows| && Shares(rows[k], s) && forall j :: 0 <= j < k ==> !Shares(rows[j], s)
  }

  lemma JoinsIsSharing(row: seq<TextSegment>, s: TextSegment)
    requires |row| > 0
    ensures Joins(row, s) <==> Shares(row, s)
  {
    SpanOf(row);
    JoinsIff(row, s, Top(row), Bottom(row));
    if Shares(row, s) {
      var top: real, bottom: real, from: real, to: real :|
        Spans(row, top, bottom) && SharedHeight(s, top, bottom, from, to);
      SpanUnique(row, top, bottom, Top(row), Bottom(row));
    }
  }

  /** Each segment in turn goes to the end of the first row it shares height with, or opens a new last row. */
  lemma {:induction false} EachJoinsFirst(
    segments: seq<TextSegment>, n: nat, s: TextSegment, before: seq<seq<TextSegment>>, after: seq<seq<TextSegment>>)
    requires n < |segments| && s == segments[n]
    requires before == PlaceAll(segments[..n]) && after == PlaceAll(segments[..n + 1])
    ensures forall k: nat :: FirstSharing(before, s, k) ==> after == before[k := before[k] + [s]]
    ensures (forall k: nat :: k < |before| ==> !Shares(before[k], s)) ==> after == before + [[s]]
  {
    assert segments[..n + 1][..n] == segments[..n];
    forall k: nat | k < |before| ensures Joins(before[k], s) <==> Shares(before[k], s) { JoinsIsSharing(before[k], s); }
    forall k: nat | FirstSharing(before, s, k) ensures after == before[k := before[k] + [s]] {
      PlacedInFirst(before, s, k);
    }
    if forall k: nat :: k < |before| ==> !Shares(before[k], s) { PlacedAlone(before, s); }
  }

  /** The span does not depend on the order. */
  lemma SameSpans(row: seq<TextSegment>, sorted: seq<TextSegment>, top: real, bottom: real)
    requires multiset(sorted) == multiset(row) && Spans(row, top, bottom)
    ensures Spans(sorted, top, bottom)
  {
    forall k | 0 <= k < |sorted| ensures top <= sorted[k].y0 && sorted[k].y1 <= bottom {
      assert sorted[k] in multiset(row);
    }
    var a :| 0 <= a < |row| && row[a].y0 == top;
    var b :| 0 <= b < |row| && row[b].y1 == bottom;
    assert row[a] in multiset(sorted) && row[b] in multiset(sorted);
  }

  lemma GapOfSpan(row: seq<TextSegment>, sorted: seq<TextSegment>, rowGap: real, top: real, bottom: real)
    requires |sorted| > 0 && multiset(sorted) == multiset(row) && Spans(row, top, bottom)
    ensures GapOf(sorted, rowGap) == rowGap * (bottom - top)
  {
    SpanOf(sorted);
    SameSpans(row, sorted, top, bottom);
    SpanUnique(sorted, top, bottom, Top(sorted), Bottom(sorted));
  }

  /** A row left to right becomes lines at gaps wider than `rowGap` times the row's own height. */
  lemma {:induction false} CutAtGap(row: seq<TextSegment>, rowGap: real, top: real, bottom: real, gap: real)
    requires |row| > 0 && TotalPreorder(ByLeft) && Spans(row, top, bottom) && gap == rowGap * (bottom - top)
    ensures RowLines(row, rowGap) == Split(Sorted(row, ByLeft), gap)
  {
    GapOfSpan(row, Sorted(row, ByLeft), rowGap, top, bottom);
  }

  /**
   * A row of the image becomes lines by the gaps between its segments from left to right: the k-th and
   * the l-th share a line exactly when a chain of gaps connects them, none wider than `rowGap` times
   * the row's own height.
   */
  lemma {:induction false} LineIff(row: seq<TextSegment>, rowGap: real, top: real, bottom: real, gap: real,
                                   sorted: seq<TextSegment>, k: nat, l: nat)
    requires |row| > 0 && TotalPreorder(ByLeft) && Spans(row, top, bottom) && gap == rowGap * (bottom - top)
    requires sorted == Sorted(row, ByLeft) && k < |sorted| && l < |sorted|
    ensures RowLines(row, rowGap) == Split(sorted, gap)
    ensures RunOf(sorted, gap, k) == RunOf(sorted, gap, l) <==> Connected(sorted, gap, k, l)
  {
    CutAtGap(row, rowGap, top, bottom, gap);
    SameLineIff(sorted, gap, k, l);
  }

  lemma {:induction false} RowPool(row: seq<TextSegment>, rowGap: real)
    requires |row| > 0 && TotalPreorder(ByLeft)
    ensures Pool(RowLines(row, rowGap)) == multiset(row)
  {
    var sorted := Sorted(row, ByLeft);
    SplitCuts(sorted, GapOf(sorted, rowGap));
    FlattenPool(RowLines(row, rowGap));
  }

  lemma {:induction false} PoolLast(rows: seq<seq<TextSegment>>)
    requires |rows| > 0
    ensures Pool(rows) == Pool(rows[..|rows| - 1]) + multiset(rows[|rows| - 1])
  {
    var last := [rows[|rows| - 1]];
    PoolAppend(rows[..|rows| - 1], last);
    assert rows == rows[..|rows| - 1] + last && |last[1..]| == 0;
  }

  lemma {:induction false} LinesKeep(rows: seq<seq<TextSegment>>, rowGap: real)
    requires NonEmpty(rows) && TotalPreorder(ByLeft)
    ensures Pool(LinesOf(rows, rowGap)) == Pool(rows)
  {
    if |rows| > 0 {
      var front, row := rows[..|rows| - 1], rows[|rows| - 1];
      LinesKeep(front, rowGap);
      RowPool(row, rowGap);
      PoolAppend(LinesOf(front, rowGap), RowLines(row, rowGap));
      PoolLast(rows);
    }
  }

  /** Every segment of the image appears in the lines exactly as often as it was read. */
  lemma {:induction false} EverySegmentOnce(segments: seq<TextSegment>, rowGap: real)
    requires TotalPreorder(ByMiddle) && TotalPreorder(ByLeft)
    ensures Pool(LinesOf(PlaceAll(Sorted(segments, ByMiddle)), rowGap)) == multiset(segments)
  {
    PlaceAllKeeps(Sorted(segments, ByMiddle));
    LinesKeep(PlaceAll(Sorted(segments, ByMiddle)), rowGap);
  }

  /** `group_lines`. */
  method GroupLines(segments: seq<TextSegment>, rowGap: real) returns (lines: seq<seq<TextSegment>>)
    ensures TotalPreorder(ByMiddle) && TotalPreorder(ByLeft)
    ensures lines == LinesOf(PlaceAll(Sorted(segments, ByMiddle)), rowGap)
    ensures Pool(lines) == multiset(segments) && NonEmpty(lines)
  {
    OrdersTotal();
    var sorted := Sorted(segments, ByMiddle);
    var rows := GroupRows(sorted);
    EverySegmentOnce(segments, rowGap);
    lines := LinesOfRows(rows, rowGap);
  }

  method LinesOfRows(rows: seq<seq<TextSegment>>, rowGap: real) returns (lines: seq<seq<TextSegment>>)
    requires NonEmpty(rows)
    ensures TotalPreorder(ByLeft) && lines == LinesOf(rows, rowGap)
  {
    OrdersTotal();
    lines := [];
    assert |rows[..0]| == 0;
    for k := 0 to |rows|
      invariant lines == LinesOf(rows[..k], rowGap)
    {
      assert rows[..k + 1][..k] == rows[..k] && rows[..k + 1][k] == rows[k];
      var row := Sorted(rows[k], ByLeft);
      var runs := SplitAtGaps(row, GapOf(row, rowGap));
      lines := lines + runs;
    }
    assert rows[..|rows|] == rows;
  }
}
