/**
 * Finding the caption box of a frame (desktop/tenir_capture/caption_box.py), from the glyph mask on:
 * lines of glyphs that cross the centre, grouped from the bottom up, grown, trimmed and padded. The
 * mask and the share of dark pixels of each row are inputs.
 */
module CaptionBox {
  import opened Prelude
  import opened GlyphRuns

  const CENTER_HALF: int := 40
  const BOX_LINE_GAP: int := 32
  const BOX_WORD_GAP: nat := 80
  const BOX_MIN_HEIGHT: int := 10
  const BOX_PAD: int := 8
  const OUTLINE_INSET: nat := 10
  const BOX_MIN_WIDTH: int := 80
  const BOX_CENTRE_TOL: real := 0.08
  const BOX_MAX_HEIGHT: int := 160
  const BOX_FILL_SHARE: real := 0.5
  const BOX_TRIM_SHARE: real := 0.2
  const FILL_MARGIN: int := 12
  const BOX_MAX_LINE: int := 26
  const LINE_SPLIT_GAP: nat := 2
  const LINE_MIN_ROWS: int := 5

  datatype Box = Box(left: int, top: int, right: int, bottom: int)

  /** Rows of equal width. */
  ghost predicate IsMask(m: seq<seq<bool>>, w: nat) { forall r :: 0 <= r < |m| ==> |m[r]| == w }

  /** A slice bound, where a negative one counts from the end. */
  function SliceBound(i: int, size: nat): (r: nat)
    ensures r <= size
  {
    if i < 0 then Max(0, i + size) else Min(i, size)
  }

  predicate AnyIn(row: seq<bool>, from: nat, to: nat) { exists k :: from <= k < to && k < |row| && row[k] }

  /** For each row, whether any of its columns in the slice is set. */
  function RowInk(m: seq<seq<bool>>, from: nat, to: nat): (r: seq<bool>)
    ensures |r| == |m|
  {
    seq(|m|, k requires 0 <= k < |m| => AnyIn(m[k], from, to))
  }

  /** For each column, whether any of its rows in [top, bottom) is set. */
  function ColumnInk(m: seq<seq<bool>>, w: nat, top: nat, bottom: nat): (r: seq<bool>)
    ensures |r| == w
  {
    seq(w, j requires 0 <= j < w => exists k :: top <= k < bottom && k < |m| && j < |m[k]| && m[k][j])
  }

  predicate Height(r: Run, low: int, high: int) { low <= r.end - r.start <= high }

  // ---- Grouping lines ------------------------------------------------------

  /** Runs in order, none touching the next. */
  ghost predicate Apart(runs: seq<Run>) {
    && (forall k :: 0 <= k < |runs| ==> runs[k].start < runs[k].end)
    && (forall j, k :: 0 <= j < k < |runs| ==> runs[j].end < runs[k].start)
  }

  predicate Within(r: Run, g: Run) { g.start <= r.start && r.end <= g.end }

  predicate BeginsAlike(r: Run, g: Run) { r.start == g.start }

  predicate EndsAlike(r: Run, g: Run) { r.end == g.end }

  /** The group begins where one of the lines from the k-th on begins, and ends where one ends. */
  ghost predicate OfLines(runs: seq<Run>, k: nat, g: Run) {
    && (exists i :: k <= i < |runs| && BeginsAlike(runs[i], g))
    && (exists j :: k <= j < |runs| && EndsAlike(runs[j], g))
  }

  ghost predicate InGroup(r: Run, groups: seq<Run>) { exists g :: 0 <= g < |groups| && Within(r, groups[g]) }

  predicate Beside(r: Run, g: Run) { r.end < g.start || g.end < r.start }

  /** Groups of the lines from the k-th down: in order from the bottom, capped, from line to line. */
  ghost predicate GroupsOk(runs: seq<Run>, k: nat, groups: seq<Run>) {
    && (forall g :: 0 <= g < |groups| ==> OfLines(runs, k, groups[g]))
    && (forall g :: 0 <= g < |groups| ==>
         groups[g].start < groups[g].end && groups[g].end - groups[g].start <= BOX_MAX_HEIGHT)
    && (forall g, j :: 0 <= g < j < |groups| ==> groups[j].end < groups[g].start)
  }

  /** What a line has to do with the groups: in one if of caption size, beside all of them if taller. */
  ghost predicate Placed(r: Run, groups: seq<Run>) {
    && (Height(r, LINE_MIN_ROWS, BOX_MAX_LINE) ==> InGroup(r, groups))
    && (r.end - r.start > BOX_MAX_LINE ==> forall g :: 0 <= g < |groups| ==> Beside(r, groups[g]))
  }

  ghost predicate Grouped(runs: seq<Run>, k: nat, groups: seq<Run>) {
    GroupsOk(runs, k, groups) && forall r :: k <= r < |runs| ==> Placed(runs[r], groups)
  }

  /** The line a group may still grow from: the top of the last group, nothing tall seen above it. */
  ghost predicate Growing(runs: seq<Run>, k: nat, groups: seq<Run>, prevTop: Option<nat>) {
    prevTop.Some? ==>
      && |groups| > 0 && groups[|groups| - 1].start == prevTop.value
      && (forall r :: k <= r < |runs| && runs[r].start < prevTop.value ==> runs[r].end - runs[r].start < LINE_MIN_ROWS)
  }

  /** All groups of the lines from the k-th down lie below the line before. */
  lemma GroupsBelow(runs: seq<Run>, k: nat, groups: seq<Run>, g: nat)
    requires Apart(runs) && 0 < k <= |runs| && GroupsOk(runs, k, groups) && g < |groups|
    ensures runs[k - 1].end < groups[g].start && OfLines(runs, k - 1, groups[g])
  {
    assert OfLines(runs, k, groups[g]);
    var i :| k <= i < |runs| && BeginsAlike(runs[i], groups[g]);
    assert runs[k - 1].end < runs[i].start;
  }

  lemma Grown(runs: seq<Run>, k: nat, groups: seq<Run>, t: seq<Run>)
    requires Apart(runs) && 0 < k <= |runs| && GroupsOk(runs, k, groups) && |groups| > 0
    requires groups[|groups| - 1].end - runs[k - 1].start <= BOX_MAX_HEIGHT
    requires t == groups[|groups| - 1 := Run(runs[k - 1].start, groups[|groups| - 1].end)]
    ensures GroupsOk(runs, k - 1, t)
  {
    var n := |groups| - 1;
    forall g | 0 <= g < |t| ensures OfLines(runs, k - 1, t[g]) && t[g].start < t[g].end {
      GroupsBelow(runs, k, groups, g);
      if g == n {
        var j :| k <= j < |runs| && EndsAlike(runs[j], groups[n]);
        assert BeginsAlike(runs[k - 1], t[n]) && EndsAlike(runs[j], t[n]);
      }
    }
  }

  /** A line stays placed when its group only grows, and no group grows onto it. */
  lemma PlacedStays(r: Run, groups: seq<Run>, t: seq<Run>)
    requires Placed(r, groups) && |groups| <= |t| && forall g :: 0 <= g < |groups| ==> Within(groups[g], t[g])
    requires r.end - r.start > BOX_MAX_LINE ==> forall g :: 0 <= g < |t| ==> Beside(r, t[g])
    ensures Placed(r, t)
  {
    if InGroup(r, groups) {
      var g :| 0 <= g < |groups| && Within(r, groups[g]);
      assert Within(r, t[g]);
    }
  }

  lemma GroupGrows(runs: seq<Run>, k: nat, groups: seq<Run>, prevTop: nat, t: seq<Run>)
    requires Apart(runs) && 0 < k <= |runs| && Grouped(runs, k, groups) && Growing(runs, k, groups, Some(prevTop))
    requires groups[|groups| - 1].end - runs[k - 1].start <= BOX_MAX_HEIGHT
    requires t == groups[|groups| - 1 := Run(runs[k - 1].start, groups[|groups| - 1].end)]
    requires Height(runs[k - 1], LINE_MIN_ROWS, BOX_MAX_LINE)
    ensures Grouped(runs, k - 1, t)
  {
    var n := |groups| - 1;
    Grown(runs, k, groups, t);
    GroupsBelow(runs, k, groups, n);
    forall r | k <= r < |runs| ensures Placed(runs[r], t) {
      assert Placed(runs[r], groups);
      assert runs[r].end - runs[r].start > BOX_MAX_LINE ==> Beside(runs[r], groups[n]) && Beside(runs[r], t[n]);
      PlacedStays(runs[r], groups, t);
    }
    assert Within(runs[k - 1], t[n]);
  }

  lemma Opened(runs: seq<Run>, k: nat, groups: seq<Run>, t: seq<Run>)
    requires Apart(runs) && 0 < k <= |runs| && GroupsOk(runs, k, groups) && t == groups + [runs[k - 1]]
    requires Height(runs[k - 1], LINE_MIN_ROWS, BOX_MAX_LINE)
    ensures GroupsOk(runs, k - 1, t)
  {
    var n := |groups|;
    forall g | 0 <= g < |t| ensures OfLines(runs, k - 1, t[g]) && (g < n ==> t[n].end < t[g].start) {
      if g < n {
        GroupsBelow(runs, k, groups, g);
      } else {
        assert BeginsAlike(runs[k - 1], t[n]) && EndsAlike(runs[k - 1], t[n]);
      }
    }
  }

  lemma GroupOpens(runs: seq<Run>, k: nat, groups: seq<Run>, t: seq<Run>)
    requires Apart(runs) && 0 < k <= |runs| && Grouped(runs, k, groups) && t == groups + [runs[k - 1]]
    requires Height(runs[k - 1], LINE_MIN_ROWS, BOX_MAX_LINE)
    ensures Grouped(runs, k - 1, t)
  {
    var n := |groups|;
    Opened(runs, k, groups, t);
    forall r | k <= r < |runs| ensures Placed(runs[r], t) {
      assert Placed(runs[r], groups) && Beside(runs[r], t[n]);
      PlacedStays(runs[r], groups, t);
    }
    assert Within(runs[k - 1], t[n]);
  }

  lemma StillGrowing(runs: seq<Run>, k: nat, groups: seq<Run>, prevTop: Option<nat>)
    requires 0 < k <= |runs| && Growing(runs, k, groups, prevTop) && runs[k - 1].end - runs[k - 1].start < LINE_MIN_ROWS
    ensures Growing(runs, k - 1, groups, prevTop)
  {}

  lemma NoneAbove(runs: seq<Run>, k: nat, groups: seq<Run>)
    requires Apart(runs) && 0 < k <= |runs| && |groups| > 0 && groups[|groups| - 1].start == runs[k - 1].start
    ensures Growing(runs, k - 1, groups, Some(runs[k - 1].start))
  {}

  /** A line too short or too tall changes no group. */
  lemma GroupSkips(runs: seq<Run>, k: nat, groups: seq<Run>)
    requires Apart(runs) && 0 < k <= |runs| && Grouped(runs, k, groups)
    requires !Height(runs[k - 1], LINE_MIN_ROWS, BOX_MAX_LINE)
    ensures Grouped(runs, k - 1, groups)
  {
    forall g | 0 <= g < |groups| ensures OfLines(runs, k - 1, groups[g]) && Beside(runs[k - 1], groups[g]) {
      GroupsBelow(runs, k, groups, g);
    }
  }

  /** The groups so far, and the top of the one that may still grow. */
  datatype Candidates = Candidates(groups: seq<Run>, prevTop: Option<nat>)

  /** One more line above: too short to count, too tall to grow past, or part of a group. */
  function AddLine(c: Candidates, r: Run): Candidates {
    if r.end - r.start < LINE_MIN_ROWS then c
    else if r.end - r.start > BOX_MAX_LINE then c.(prevTop := None)
    else
      var n := |c.groups| - 1;
      if c.prevTop.Some? && n >= 0
        && c.prevTop.value - r.end <= BOX_LINE_GAP && c.groups[n].end - r.start <= BOX_MAX_HEIGHT
      then Candidates(c.groups[n := Run(r.start, c.groups[n].end)], Some(r.start))
      else Candidates(c.groups + [r], Some(r.start))
  }

  /** The groups of the lines from the k-th down. */
  function Grouping(runs: seq<Run>, k: nat): Candidates
    decreases |runs| - k
  {
    if k >= |runs| then Candidates([], None) else AddLine(Grouping(runs, k + 1), runs[k])
  }

  ghost predicate CandidatesOk(runs: seq<Run>, k: nat, c: Candidates) {
    Grouped(runs, k, c.groups) && Growing(runs, k, c.groups, c.prevTop)
  }

  lemma AddLineOk(runs: seq<Run>, k: nat, c: Candidates)
    requires Apart(runs) && 0 < k <= |runs| && CandidatesOk(runs, k, c)
    ensures CandidatesOk(runs, k - 1, AddLine(c, runs[k - 1]))
  {
    var r, t := runs[k - 1], AddLine(c, runs[k - 1]);
    if !Height(r, LINE_MIN_ROWS, BOX_MAX_LINE) {
      GroupSkips(runs, k, c.groups);
      if r.end - r.start < LINE_MIN_ROWS { StillGrowing(runs, k, c.groups, c.prevTop); }
    } else {
      if |t.groups| == |c.groups| {
        GroupGrows(runs, k, c.groups, c.prevTop.value, t.groups);
      } else {
        GroupOpens(runs, k, c.groups, t.groups);
      }
      NoneAbove(runs, k, t.groups);
    }
  }

  /** The candidates so far are those of the lines from the k-th down. */
  ghost predicate SoFar(runs: seq<Run>, k: nat, c: Candidates) {
    c == Grouping(runs, k) && CandidatesOk(runs, k, c)
  }

  lemma SoFarNone(runs: seq<Run>)
    ensures SoFar(runs, |runs|, Candidates([], None))
  {}

  lemma SoFarStep(runs: seq<Run>, k: nat, c: Candidates)
    requires Apart(runs) && 0 < k <= |runs| && SoFar(runs, k, c)
    ensures SoFar(runs, k - 1, AddLine(c, runs[k - 1]))
    ensures c.prevTop.Some? ==> |c.groups| > 0
  {
    AddLineOk(runs, k, c);
  }

  /**
   * The candidate boxes, from the bottom up: lines of caption size close together, with anything
   * taller between them keeping them apart.
   */
  method GroupLines(runs: seq<Run>) returns (groups: seq<Run>)
    requires Apart(runs)
    ensures groups == Grouping(runs, 0).groups && Grouped(runs, 0, groups)
  {
    groups := [];
    var prevTop: Option<nat> := None;
    var k: nat := |runs|;
    SoFarNone(runs);
    while k > 0
      invariant k <= |runs| && SoFar(runs, k, Candidates(groups, prevTop))
    {
      SoFarStep(runs, k, Candidates(groups, prevTop));
      groups, prevTop := TakeLine(groups, prevTop, runs[k - 1]);
      k := k - 1;
    }
  }

  method TakeLine(groups: seq<Run>, prevTop: Option<nat>, line: Run) returns (grown: seq<Run>, top: Option<nat>)
    requires prevTop.Some? ==> |groups| > 0
    ensures Candidates(grown, top) == AddLine(Candidates(groups, prevTop), line)
  {
    grown, top := groups, prevTop;
    var a, b := line.start, line.end;
    if b - a < LINE_MIN_ROWS {
      return;
    }
    if b - a > BOX_MAX_LINE {
      top := None;
      return;
    }
    if prevTop.Some? && prevTop.value - b <= BOX_LINE_GAP && groups[|groups| - 1].end - a <= BOX_MAX_HEIGHT {
      grown := groups[|groups| - 1 := Run(a, groups[|groups| - 1].end)];
    } else {
      grown := groups + [line];
    }
    top := Some(a);
  }

  // ---- The box -------------------------------------------------------------

  /** The shares of dark pixels between two columns, summed over the rows [from, to). */
  function SumFill(fill: (nat, nat, nat) -> real, left: nat, right: nat, from: nat, to: nat): real
    decreases to - from
  {
    if from >= to then 0.0 else fill(from, left, right) + SumFill(fill, left, right, from + 1, to)
  }

  /** A caption-sized line on box fill; the mean is over at least one row. */
  predicate CaptionLine(r: Run, fill: (nat, nat, nat) -> real, span: Run) {
    && r.end - r.start <= BOX_MAX_LINE && r.start < r.end
    && SumFill(fill, span.start, span.end, r.start, r.end) >= BOX_TRIM_SHARE * (r.end - r.start) as real
  }

  /** Wide enough, containing the centre column, and with its middle near it. */
  predicate Centred(span: Run, w: nat) {
    && span.start <= w / 2 < span.end <= w && span.end - span.start >= BOX_MIN_WIDTH
    && -BOX_CENTRE_TOL * (w as real) <= (span.start + span.end) as real / 2.0 - (w / 2) as real
    && (span.start + span.end) as real / 2.0 - (w / 2) as real <= BOX_CENTRE_TOL * (w as real)
  }

  /** The first run through column c, of those from the k-th on; the runs being apart, the only one. */
  function Through(runs: seq<Run>, c: nat, k: nat): (span: Option<Run>)
    ensures span.Some? ==> span.value in runs && Inside(span.value, c)
    ensures span.None? ==> forall j :: k <= j < |runs| ==> !Inside(runs[j], c)
    decreases |runs| - k
  {
    if k >= |runs| then None else if Inside(runs[k], c) then Some(runs[k]) else Through(runs, c, k + 1)
  }

  /** `centre_span`: the run of glyph columns through the centre, if it is centred and wide enough. */
  function CentreSpan(m: seq<seq<bool>>, w: nat, top: nat, bottom: nat): (span: Option<Run>)
    ensures var runs := Runs(ColumnInk(m, w, top, bottom), BOX_WORD_GAP);
            if span.Some? then span.value in runs && Centred(span.value, w)
            else forall r :: r in runs ==> !Centred(r, w)
  {
    var flags := ColumnInk(m, w, top, bottom);
    var runs := Runs(flags, BOX_WORD_GAP);
    var span := Through(runs, w / 2, 0);
    RunsWellFormed(flags, BOX_WORD_GAP);
    if span.None? then None
    else
      OnlyThrough(runs, BOX_WORD_GAP, span.value, w);
      if IsCentred(span.value, w) then span else None
  }

  /** The tests of `centre_span` on the run through the centre. */
  predicate IsCentred(span: Run, w: nat) {
    var off := (span.start + span.end) as real / 2.0 - (w / 2) as real;
    span.end - span.start >= BOX_MIN_WIDTH && (if off < 0.0 then -off else off) <= BOX_CENTRE_TOL * (w as real)
  }

  lemma OnlyThrough(runs: seq<Run>, gap: nat, span: Run, w: nat)
    requires forall a, b :: 0 <= a < b < |runs| ==> runs[a].end + gap < runs[b].start
    requires (forall k :: 0 <= k < |runs| ==> runs[k].end <= w) && span in runs && Inside(span, w / 2)
    ensures Centred(span, w) <==> IsCentred(span, w)
    ensures forall r :: r in runs && Centred(r, w) ==> r == span
  {
    var k :| 0 <= k < |runs| && runs[k] == span;
    forall j | 0 <= j < |runs| && j != k ensures !Inside(runs[j], w / 2) { OneRunInside(runs, gap, j, k, w / 2); }
  }

  lemma OneRunInside(runs: seq<Run>, gap: nat, j: nat, k: nat, c: nat)
    requires forall a, b :: 0 <= a < b < |runs| ==> runs[a].end + gap < runs[b].start
    requires j < |runs| && k < |runs| && j != k && Inside(runs[k], c)
    ensures !Inside(runs[j], c)
  {
    if j < k { assert runs[j].end + gap < runs[k].start; } else { assert runs[k].end + gap < runs[j].start; }
  }

  /** The box may grow over a line: close enough, of caption size on box fill, and within the cap. */
  predicate Takes(r: Run, gap: int, height: int, fill: (nat, nat, nat) -> real, span: Run) {
    gap <= BOX_LINE_GAP && CaptionLine(r, fill, span) && height <= BOX_MAX_HEIGHT
  }

  /** The top of a box grown over the first k lines, from the last of them up, as far as it takes them. */
  function GrownTop(
    lines: seq<Run>, k: nat, top: nat, t: nat, bottom: nat, fill: (nat, nat, nat) -> real, span: Run): nat
    requires k <= |lines|
  {
    if k == 0 then t
    else
      var r := lines[k - 1];
      if r.end > top then GrownTop(lines, k - 1, top, t, bottom, fill, span)
      else if Takes(r, t - r.end, bottom - r.start, fill, span)
      then GrownTop(lines, k - 1, top, r.start, bottom, fill, span)
      else t
  }

  /** The box grows over lines above it, one caption line at a time, and never past its cap. */
  method GrowUp(lines: seq<Run>, top: nat, bottom: nat, fill: (nat, nat, nat) -> real, span: Run) returns (t: nat)
    requires Apart(lines) && top < bottom && bottom - top <= BOX_MAX_HEIGHT
    ensures t == GrownTop(lines, |lines|, top, top, bottom, fill, span)
    ensures t <= top && bottom - t <= BOX_MAX_HEIGHT
    ensures t == top || exists r :: r in lines && r.start == t && r.end <= top && CaptionLine(r, fill, span)
  {
    t := top;
    var k: nat := |lines|;
    while k > 0
      invariant k <= |lines| && t <= top && bottom - t <= BOX_MAX_HEIGHT
      invariant GrownTop(lines, k, top, t, bottom, fill, span) == GrownTop(lines, |lines|, top, top, bottom, fill, span)
      invariant t == top || exists r :: r in lines && r.start == t && r.end <= top && CaptionLine(r, fill, span)
    {
      var r := lines[k - 1];
      if r.end <= top {
        if t - r.end > BOX_LINE_GAP || !CaptionLine(r, fill, span) || bottom - r.start > BOX_MAX_HEIGHT {
          return;
        }
        t := r.start;
      }
      k := k - 1;
    }
  }

  /** The bottom of a box grown over the lines from the k-th on, as far as it takes them. */
  function GrownBottom(
    lines: seq<Run>, k: nat, top: nat, bottom: nat, b: nat, fill: (nat, nat, nat) -> real, span: Run): nat
    decreases |lines| - k
  {
    if k >= |lines| then b
    else
      var r := lines[k];
      if r.start < bottom then GrownBottom(lines, k + 1, top, bottom, b, fill, span)
      else if Takes(r, r.start - b, r.end - top, fill, span)
      then GrownBottom(lines, k + 1, top, bottom, r.end, fill, span)
      else b
  }

  method GrowDown(lines: seq<Run>, top: nat, bottom: nat, fill: (nat, nat, nat) -> real, span: Run) returns (b: nat)
    requires Apart(lines) && top < bottom && bottom - top <= BOX_MAX_HEIGHT
    ensures b == GrownBottom(lines, 0, top, bottom, bottom, fill, span)
    ensures b >= bottom && b - top <= BOX_MAX_HEIGHT
    ensures b == bottom || exists r :: r in lines && r.end == b && r.start >= bottom && CaptionLine(r, fill, span)
  {
    b := bottom;
    for k := 0 to |lines|
      invariant b >= bottom && b - top <= BOX_MAX_HEIGHT
      invariant
        GrownBottom(lines, k, top, bottom, b, fill, span) == GrownBottom(lines, 0, top, bottom, bottom, fill, span)
      invariant b == bottom || exists r :: r in lines && r.end == b && r.start >= bottom && CaptionLine(r, fill, span)
    {
      var r := lines[k];
      if r.start >= bottom {
        if r.start - b > BOX_LINE_GAP || !CaptionLine(r, fill, span) || r.end - top > BOX_MAX_HEIGHT {
          return;
        }
        b := r.end;
      }
    }
  }

  /** A row that is mostly video beside the box. */
  predicate IsVideo(fill: (nat, nat, nat) -> real, span: Run, row: nat) {
    fill(row, span.start, span.end) < BOX_TRIM_SHARE
  }

  function TrimmedTop(top: nat, bottom: nat, fill: (nat, nat, nat) -> real, span: Run): nat
    decreases bottom - top
  {
    if bottom - top > BOX_MIN_HEIGHT && IsVideo(fill, span, top) then TrimmedTop(top + 1, bottom, fill, span) else top
  }

  function TrimmedBottom(top: nat, bottom: nat, fill: (nat, nat, nat) -> real, span: Run): nat {
    if bottom - top > BOX_MIN_HEIGHT && IsVideo(fill, span, bottom - 1)
    then TrimmedBottom(top, bottom - 1, fill, span) else bottom
  }

  /** Edge rows that are mostly video are trimmed, from the top first, down to the least height, and only those. */
  method Trim(top: nat, bottom: nat, fill: (nat, nat, nat) -> real, span: Run) returns (t: nat, b: nat)
    requires BOX_MIN_HEIGHT <= bottom - top
    ensures t == TrimmedTop(top, bottom, fill, span) && b == TrimmedBottom(t, bottom, fill, span)
    ensures top <= t < b <= bottom && BOX_MIN_HEIGHT <= b - t
    ensures forall r :: top <= r < t || b <= r < bottom ==> IsVideo(fill, span, r)
    ensures bottom - t > BOX_MIN_HEIGHT ==> !IsVideo(fill, span, t)
    ensures b - t > BOX_MIN_HEIGHT ==> !IsVideo(fill, span, b - 1)
  {
    t, b := top, bottom;
    while b - t > BOX_MIN_HEIGHT && IsVideo(fill, span, t)
      invariant top <= t < b && BOX_MIN_HEIGHT <= b - t && forall r :: top <= r < t ==> IsVideo(fill, span, r)
      invariant TrimmedTop(t, bottom, fill, span) == TrimmedTop(top, bottom, fill, span)
    {
      t := t + 1;
    }
    while b - t > BOX_MIN_HEIGHT && IsVideo(fill, span, b - 1)
      invariant t < b <= bottom && BOX_MIN_HEIGHT <= b - t && forall r :: b <= r < bottom ==> IsVideo(fill, span, r)
      invariant TrimmedBottom(t, b, fill, span) == TrimmedBottom(t, bottom, fill, span)
    {
      b := b - 1;
    }
  }

  /** How many of the rows are not video, and the sum of their shares. */
  function Kept(fill: (nat, nat, nat) -> real, span: Run, from: nat, to: nat): (nat, real)
    decreases to - from
  {
    if from >= to then (0, 0.0)
    else
      var rest := Kept(fill, span, from + 1, to);
      if IsVideo(fill, span, from) then rest else (rest.0 + 1, rest.1 + fill(from, span.start, span.end))
  }

  /** The rows around the box are dark: enough of them are kept, and those are mostly box fill. */
  predicate OnFill(fill: (nat, nat, nat) -> real, span: Run, top: nat, bottom: nat, h: nat) {
    var rows := Kept(fill, span, Max(0, top - FILL_MARGIN), Min(h, bottom + FILL_MARGIN));
    rows.0 >= bottom - top && rows.1 >= BOX_FILL_SHARE * rows.0 as real
  }

  predicate AnyRow(ink: seq<bool>, top: nat, bottom: nat) { exists k :: top <= k < bottom && k < |ink| && ink[k] }

  /** A box before padding, on rows [top, bottom) and columns of `span`, in an image h high and w wide. */
  ghost predicate Unpadded(h: nat, w: nat, fill: (nat, nat, nat) -> real, top: nat, bottom: nat, span: Run) {
    && top < bottom <= h && BOX_MIN_HEIGHT <= bottom - top <= BOX_MAX_HEIGHT
    && Centred(span, w) && OnFill(fill, span, top, bottom, h)
  }

  function Padded(top: nat, bottom: nat, span: Run, w: nat, h: nat): Box {
    Box(Max(0, span.start - BOX_PAD), Max(0, top - BOX_PAD), Min(w, span.end + BOX_PAD), Min(h, bottom + BOX_PAD))
  }

  /** The box is the padding of one that passed every test. */
  ghost predicate IsCaptionBox(h: nat, w: nat, fill: (nat, nat, nat) -> real, box: Box) {
    exists top: nat, bottom: nat, span ::
      Unpadded(h, w, fill, top, bottom, span) && box == Padded(top, bottom, span, w, h)
  }

  /**
   * Any caption box lies in the image, contains the centre column, is wide enough, and is at most the
   * padding taller than the greatest height.
   */
  lemma CaptionBoxFits(h: nat, w: nat, fill: (nat, nat, nat) -> real, box: Box)
    requires IsCaptionBox(h, w, fill, box)
    ensures 0 <= box.left <= w / 2 < box.right <= w && 0 <= box.top < box.bottom <= h
    ensures box.right - box.left >= BOX_MIN_WIDTH
    ensures BOX_MIN_HEIGHT <= box.bottom - box.top <= BOX_MAX_HEIGHT + 2 * BOX_PAD
  {
    var top: nat, bottom: nat, span :|
      Unpadded(h, w, fill, top, bottom, span) && box == Padded(top, bottom, span, w, h);
  }

  /** What becomes of a box grown to [top, bottom) and `span`: trimmed, held against the fill, padded. */
  function Finished(h: nat, w: nat, fill: (nat, nat, nat) -> real, top: nat, bottom: nat, span: Run): Option<Box> {
    var t := TrimmedTop(top, bottom, fill, span);
    var b := TrimmedBottom(t, bottom, fill, span);
    if OnFill(fill, span, t, b, h) then Some(Padded(t, b, span, w, h)) else None
  }

  method Finish(h: nat, w: nat, fill: (nat, nat, nat) -> real, top: nat, bottom: nat, span: Run)
    returns (box: Option<Box>)
    requires bottom <= h && BOX_MIN_HEIGHT <= bottom - top <= BOX_MAX_HEIGHT && Centred(span, w)
    ensures box == Finished(h, w, fill, top, bottom, span)
    ensures box.Some? ==> IsCaptionBox(h, w, fill, box.value)
  {
    var t, b := Trim(top, bottom, fill, span);
    if !OnFill(fill, span, t, b, h) {
      return None;
    }
    box := Some(Padded(t, b, span, w, h));
    assert Unpadded(h, w, fill, t, b, span);
  }

  /** The lines inside the columns of a span, away from the box's outline. */
  function InnerLines(m: seq<seq<bool>>, span: Run): (lines: seq<Run>)
    ensures Apart(lines) && forall r :: r in lines ==> r.end <= |m|
  {
    var lo := span.start + OUTLINE_INSET;
    var flags := RowInk(m, lo, Max(lo + 1, span.end - OUTLINE_INSET));
    RunsWellFormed(flags, LINE_SPLIT_GAP);
    Runs(flags, LINE_SPLIT_GAP)
  }

  /** What a candidate comes to: its span through the centre, grown over the lines around it, finished. */
  ghost function CandidateBox(m: seq<seq<bool>>, w: nat, fill: (nat, nat, nat) -> real, group: Run): Option<Box> {
    var span := CentreSpan(m, w, group.start, group.end);
    if span.None? then None
    else
      var lines := InnerLines(m, span.value);
      var top := GrownTop(lines, |lines|, group.start, group.start, group.end, fill, span.value);
      var bottom := GrownBottom(lines, 0, top, group.end, group.end, fill, span.value);
      var wider := CentreSpan(m, w, top, bottom);
      Finished(|m|, w, fill, top, bottom, if wider.Some? then wider.value else span.value)
  }

  /** One candidate, grown over the lines around it. */
  method TryCandidate(m: seq<seq<bool>>, w: nat, fill: (nat, nat, nat) -> real, group: Run) returns (box: Option<Box>)
    requires group.end <= |m| && Height(group, BOX_MIN_HEIGHT, BOX_MAX_HEIGHT)
    ensures box == CandidateBox(m, w, fill, group)
    ensures box.Some? ==> IsCaptionBox(|m|, w, fill, box.value)
  {
    var span := CentreSpan(m, w, group.start, group.end);
    if span.None? {
      return None;
    }
    var lines := InnerLines(m, span.value);
    var top := GrowUp(lines, group.start, group.end, fill, span.value);
    var bottom := GrowDown(lines, top, group.end, fill, span.value);
    var wider := CentreSpan(m, w, top, bottom);
    box := Finish(|m|, w, fill, top, bottom, if wider.Some? then wider.value else span.value);
  }

  /** The groups of lines that cross the centre, from the bottom up, all inside the image. */
  method CentreGroups(ink: seq<bool>) returns (groups: seq<Run>)
    ensures groups == Grouping(Runs(ink, LINE_SPLIT_GAP), 0).groups
    ensures forall g :: g in groups ==> g.start < g.end <= |ink| && g.end - g.start <= BOX_MAX_HEIGHT
  {
    var lines := Runs(ink, LINE_SPLIT_GAP);
    LinesFit(ink, lines);
    groups := GroupLines(lines);
    GroupsFit(lines, groups, |ink|);
  }

  lemma LinesFit(ink: seq<bool>, lines: seq<Run>)
    requires lines == Runs(ink, LINE_SPLIT_GAP)
    ensures Apart(lines) && forall k :: 0 <= k < |lines| ==> lines[k].end <= |ink|
  {
    RunsWellFormed(ink, LINE_SPLIT_GAP);
  }

  /** Groups of lines inside an image are inside it. */
  lemma GroupsFit(lines: seq<Run>, groups: seq<Run>, h: nat)
    requires GroupsOk(lines, 0, groups) && forall k :: 0 <= k < |lines| ==> lines[k].end <= h
    ensures forall g :: g in groups ==> g.start < g.end <= h && g.end - g.start <= BOX_MAX_HEIGHT
  {
    forall k | 0 <= k < |groups| ensures groups[k].end <= h {
      assert OfLines(lines, 0, groups[k]);
      var j :| 0 <= j < |lines| && EndsAlike(lines[j], groups[k]);
    }
  }

  function LeftInk(m: seq<seq<bool>>, w: nat): seq<bool> { RowInk(m, SliceBound(w / 2 - CENTER_HALF, w), w / 2) }

  function RightInk(m: seq<seq<bool>>, w: nat): seq<bool> { RowInk(m, w / 2, SliceBound(w / 2 + CENTER_HALF, w)) }

  /** Rows with ink beside the centre column, on either side. */
  function CentreInk(m: seq<seq<bool>>, w: nat): (r: seq<bool>)
    ensures |r| == |m|
  {
    seq(|m|, k requires 0 <= k < |m| => LeftInk(m, w)[k] || RightInk(m, w)[k])
  }

  /** A group worth trying: tall enough, with ink on both sides of the centre. */
  predicate IsCandidate(m: seq<seq<bool>>, w: nat, group: Run) {
    && group.end - group.start >= BOX_MIN_HEIGHT
    && AnyRow(LeftInk(m, w), group.start, group.end) && AnyRow(RightInk(m, w), group.start, group.end)
  }

  /** What a group comes to, if it is a candidate. */
  ghost function BoxAt(m: seq<seq<bool>>, w: nat, fill: (nat, nat, nat) -> real, group: Run): Option<Box> {
    if IsCandidate(m, w, group) then CandidateBox(m, w, fill, group) else None
  }

  ghost predicate NoneBefore(boxAt: Run -> Option<Box>, groups: seq<Run>, k: nat)
    requires k <= |groups|
  {
    forall j :: 0 <= j < k ==> boxAt(groups[j]).None?
  }

  /** The box is that of the lowest group that comes to one; without a box, no group does. */
  ghost predicate IsLowest(boxAt: Run -> Option<Box>, groups: seq<Run>, box: Option<Box>) {
    if box.None? then NoneBefore(boxAt, groups, |groups|)
    else exists k :: 0 <= k < |groups| && boxAt(groups[k]) == box && NoneBefore(boxAt, groups, k)
  }

  /** `boxAt` says of this group what BoxAt says. */
  ghost predicate Says(
    boxAt: Run -> Option<Box>, m: seq<seq<bool>>, w: nat, fill: (nat, nat, nat) -> real, group: Run)
  {
    boxAt(group) == BoxAt(m, w, fill, group)
  }

  method TryGroup(
    m: seq<seq<bool>>, w: nat, fill: (nat, nat, nat) -> real, group: Run, ghost boxAt: Run -> Option<Box>)
    returns (box: Option<Box>)
    requires group.end <= |m| && group.end - group.start <= BOX_MAX_HEIGHT && Says(boxAt, m, w, fill, group)
    ensures box == boxAt(group)
    ensures box.Some? ==> IsCaptionBox(|m|, w, fill, box.value)
  {
    if !IsCandidate(m, w, group) {
      return None;
    }
    box := TryCandidate(m, w, fill, group);
  }

  /** The loop over the candidates, lowest first. */
  method FirstBox(
    m: seq<seq<bool>>, w: nat, fill: (nat, nat, nat) -> real, groups: seq<Run>, ghost boxAt: Run -> Option<Box>)
    returns (box: Option<Box>)
    requires forall g :: g in groups ==> g.end <= |m| && g.end - g.start <= BOX_MAX_HEIGHT
    requires forall g {:trigger Says(boxAt, m, w, fill, g)} :: Says(boxAt, m, w, fill, g)
    ensures IsLowest(boxAt, groups, box)
    ensures box.Some? ==> IsCaptionBox(|m|, w, fill, box.value)
  {
    for k := 0 to |groups|
      invariant NoneBefore(boxAt, groups, k)
    {
      assert groups[k] in groups;
      box := TryGroup(m, w, fill, groups[k], boxAt);
      if box.Some? {
        return;
      }
    }
    return None;
  }

  /** `find_caption_box`: the lowest candidate that passes every test, padded, and none only if none does. */
  method FindCaptionBox(m: seq<seq<bool>>, w: nat, fill: (nat, nat, nat) -> real) returns (box: Option<Box>)
    requires IsMask(m, w)
    ensures IsLowest(g => BoxAt(m, w, fill, g), Grouping(Runs(CentreInk(m, w), LINE_SPLIT_GAP), 0).groups, box)
    ensures box.Some? ==> IsCaptionBox(|m|, w, fill, box.value)
  {
    var groups := CentreGroups(CentreInk(m, w));
    box := FirstBox(m, w, fill, groups, g => BoxAt(m, w, fill, g));
  }
}
