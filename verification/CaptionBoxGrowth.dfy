/** Which lines of glyphs end up in one candidate box, and which lines around it a box grows over. */
module CaptionBoxGrowth {
  import opened Prelude
  import opened GlyphRuns
  import opened CaptionBox

  // ---- Lines of one group --------------------------------------------------

  predicate Short(r: Run) { r.end - r.start < LINE_MIN_ROWS }

  predicate Caption(r: Run) { Height(r, LINE_MIN_ROWS, BOX_MAX_LINE) }

  /** The j-th line is the first from the k-th down that is not too short to count. */
  ghost predicate Next(runs: seq<Run>, k: nat, j: nat) {
    k <= j < |runs| && !Short(runs[j]) && forall m :: k <= m < j ==> Short(runs[m])
  }

  /** Two lines of caption size with only short ones between them. */
  ghost predicate Neighbours(runs: seq<Run>, i: nat, j: nat) {
    i < j && Next(runs, i + 1, j) && Caption(runs[i]) && Caption(runs[j])
  }

  /** The line above is close to the one below, and reaches no higher than a box may above the group's end. */
  predicate Near(above: Run, below: Run, g: Run) {
    below.start - above.end <= BOX_LINE_GAP && g.end - above.start <= BOX_MAX_HEIGHT
  }

  ghost predicate PairOk(above: Run, below: Run, g: Run) {
    Within(below, g) ==> (Within(above, g) <==> Near(above, below, g))
  }

  ghost predicate PairsOk(runs: seq<Run>, k: nat, g: Run) {
    forall i: nat, j: nat :: k <= i && Neighbours(runs, i, j) ==> PairOk(runs[i], runs[j], g)
  }

  ghost predicate AllPairs(runs: seq<Run>, k: nat, groups: seq<Run>) {
    forall g :: 0 <= g < |groups| ==> PairsOk(runs, k, groups[g])
  }

  /** The next line to count decides what may grow: a caption line, its own group; a taller one, nothing. */
  ghost predicate NextOk(runs: seq<Run>, k: nat, c: Candidates) {
    forall j: nat :: Next(runs, k, j) ==>
      if Caption(runs[j]) then
        && c.prevTop == Some(runs[j].start)
        && |c.groups| > 0 && Within(runs[j], c.groups[|c.groups| - 1])
      else c.prevTop.None?
  }

  ghost predicate Linked(runs: seq<Run>, k: nat, c: Candidates) {
    CandidatesOk(runs, k, c) && AllPairs(runs, k, c.groups) && NextOk(runs, k, c)
  }

  /** Only the last group has a line that begins where it does. */
  lemma InLast(runs: seq<Run>, k: nat, groups: seq<Run>, r: Run, g: nat)
    requires GroupsOk(runs, k, groups) && g < |groups| && r.start < r.end && Within(r, groups[g])
    requires Within(r, groups[|groups| - 1])
    ensures g == |groups| - 1
  {}

  lemma SamePairs(runs: seq<Run>, k: nat, groups: seq<Run>)
    requires 0 < k <= |runs| && AllPairs(runs, k, groups) && !Caption(runs[k - 1])
    ensures AllPairs(runs, k - 1, groups)
  {
    forall g | 0 <= g < |groups| ensures PairsOk(runs, k - 1, groups[g]) { assert PairsOk(runs, k, groups[g]); }
  }

  /** The pairs below a group that grows stay as they were: nothing but short lines lies where it grew. */
  lemma GrownPair(runs: seq<Run>, k: nat, groups: seq<Run>, prevTop: nat, g: Run, i: nat, j: nat)
    requires Apart(runs) && 0 < k <= i && Growing(runs, k, groups, Some(prevTop)) && Neighbours(runs, i, j)
    requires PairOk(runs[i], runs[j], groups[|groups| - 1])
    requires g == Run(runs[k - 1].start, groups[|groups| - 1].end)
    ensures PairOk(runs[i], runs[j], g)
  {
    assert runs[k - 1].end < runs[i].start && runs[k - 1].end < runs[j].start;
    assert runs[i].start >= prevTop && runs[j].start >= prevTop;
  }

  /** What a caption line above does to the pair it forms with the line below it. */
  lemma NewPair(runs: seq<Run>, k: nat, c: Candidates, j: nat, g: nat)
    requires Apart(runs) && 0 < k <= |runs| && Linked(runs, k, c) && Neighbours(runs, k - 1, j)
    requires g < |AddLine(c, runs[k - 1]).groups|
    ensures PairOk(runs[k - 1], runs[j], AddLine(c, runs[k - 1]).groups[g])
  {
    var t := AddLine(c, runs[k - 1]).groups;
    assert Next(runs, k, j);
    if g < |c.groups| && Within(runs[j], c.groups[g]) {
      InLast(runs, k, c.groups, runs[j], g);
      GroupsBelow(runs, k, c.groups, g);
    }
    assert runs[k - 1].end < runs[j].start;
  }

  lemma OldPairs(runs: seq<Run>, k: nat, c: Candidates, i: nat, j: nat, g: nat)
    requires Apart(runs) && 0 < k <= i && Neighbours(runs, i, j) && Caption(runs[k - 1])
    requires Growing(runs, k, c.groups, c.prevTop) && AllPairs(runs, k, c.groups)
    requires g < |AddLine(c, runs[k - 1]).groups|
    ensures PairOk(runs[i], runs[j], AddLine(c, runs[k - 1]).groups[g])
  {
    var t := AddLine(c, runs[k - 1]).groups;
    if g < |c.groups| {
      assert PairsOk(runs, k, c.groups[g]);
      if t[g] != c.groups[g] { GrownPair(runs, k, c.groups, c.prevTop.value, t[g], i, j); }
    } else {
      assert runs[k - 1].end < runs[j].start;
    }
  }

  lemma CaptionPair(runs: seq<Run>, k: nat, c: Candidates, i: nat, j: nat, g: nat)
    requires Apart(runs) && 0 < k <= |runs| && Linked(runs, k, c) && Caption(runs[k - 1])
    requires k - 1 <= i && Neighbours(runs, i, j) && g < |AddLine(c, runs[k - 1]).groups|
    ensures PairOk(runs[i], runs[j], AddLine(c, runs[k - 1]).groups[g])
  {
    if i == k - 1 { NewPair(runs, k, c, j, g); } else { OldPairs(runs, k, c, i, j, g); }
  }

  lemma CaptionPairs(runs: seq<Run>, k: nat, c: Candidates, t: Candidates, g: nat)
    requires Apart(runs) && 0 < k <= |runs| && Linked(runs, k, c) && Caption(runs[k - 1])
    requires t == AddLine(c, runs[k - 1]) && g < |t.groups|
    ensures PairsOk(runs, k - 1, t.groups[g])
  {
    forall i: nat, j: nat | k - 1 <= i && Neighbours(runs, i, j) ensures PairOk(runs[i], runs[j], t.groups[g]) {
      CaptionPair(runs, k, c, i, j, g);
    }
  }

  lemma NextStep(runs: seq<Run>, k: nat, c: Candidates)
    requires Apart(runs) && 0 < k <= |runs| && Linked(runs, k, c)
    ensures NextOk(runs, k - 1, AddLine(c, runs[k - 1]))
  {
    var t := AddLine(c, runs[k - 1]);
    forall j: nat | Next(runs, k - 1, j)
      ensures if Caption(runs[j]) then
                t.prevTop == Some(runs[j].start) && |t.groups| > 0 && Within(runs[j], t.groups[|t.groups| - 1])
              else t.prevTop.None?
    {
      if j == k - 1 {
        if |c.groups| > 0 { GroupsBelow(runs, k, c.groups, |c.groups| - 1); }
      } else {
        assert Next(runs, k, j);
      }
    }
  }

  lemma LinkedStep(runs: seq<Run>, k: nat, c: Candidates)
    requires Apart(runs) && 0 < k <= |runs| && Linked(runs, k, c)
    ensures Linked(runs, k - 1, AddLine(c, runs[k - 1]))
  {
    var t := AddLine(c, runs[k - 1]);
    AddLineOk(runs, k, c);
    NextStep(runs, k, c);
    if Caption(runs[k - 1]) {
      forall g | 0 <= g < |t.groups| ensures PairsOk(runs, k - 1, t.groups[g]) { CaptionPairs(runs, k, c, t, g); }
    } else {
      SamePairs(runs, k, c.groups);
    }
  }

  lemma LinkedNone(runs: seq<Run>, k: nat, c: Candidates)
    requires k == |runs| && |c.groups| == 0 && c.prevTop.None?
    ensures Linked(runs, k, c)
  {}

  ghost predicate GroupingOk(runs: seq<Run>, k: nat) { Linked(runs, k, Grouping(runs, k)) }

  lemma LinkedBefore(runs: seq<Run>, k: nat)
    requires Apart(runs) && k < |runs| && GroupingOk(runs, k + 1)
    ensures GroupingOk(runs, k)
  {
    LinkedStep(runs, k + 1, Grouping(runs, k + 1));
  }

  lemma {:induction false} GroupingLinked(runs: seq<Run>, k: nat)
    requires Apart(runs) && k <= |runs|
    ensures GroupingOk(runs, k)
    decreases |runs| - k
  {
    if k < |runs| {
      GroupingLinked(runs, k + 1);
      LinkedBefore(runs, k);
    } else {
      LinkedNone(runs, k, Grouping(runs, k));
    }
  }

  /**
   * Every line of caption size is in a candidate, anything taller in none; and of two with only shorter
   * lines between them, the upper is in the lower's candidate exactly when they are close and the
   * candidate stays within the greatest height.
   */
  lemma GroupsIff(runs: seq<Run>, i: nat, j: nat, g: nat)
    requires Apart(runs) && Neighbours(runs, i, j) && g < |Grouping(runs, 0).groups|
    requires Within(runs[j], Grouping(runs, 0).groups[g])
    ensures forall r :: 0 <= r < |runs| ==> Placed(runs[r], Grouping(runs, 0).groups)
    ensures Within(runs[i], Grouping(runs, 0).groups[g]) <==> Near(runs[i], runs[j], Grouping(runs, 0).groups[g])
  {
    GroupingLinked(runs, 0);
    assert PairsOk(runs, 0, Grouping(runs, 0).groups[g]);
  }

  // ---- Lines a box grows over ----------------------------------------------

  /** Low enough for a line of a caption, and on rows that are box fill on the whole. */
  predicate OnBox(r: Run, fill: (nat, nat, nat) -> real, span: Run) {
    && 0 < r.end - r.start <= BOX_MAX_LINE
    && SumFill(fill, span.start, span.end, r.start, r.end) >= BOX_TRIM_SHARE * (r.end - r.start) as real
  }

  /** Where the box or its next line begins, below the k-th line from here up. */
  function BelowAt(lines: seq<Run>, k: nat, top: nat): nat {
    if k < |lines| && lines[k].end <= top then lines[k].start else top
  }

  /** The box may take the j-th line, standing above what it took before. */
  predicate TakesUp(lines: seq<Run>, j: nat, top: nat, bottom: nat, fill: (nat, nat, nat) -> real, span: Run)
    requires j < |lines|
  {
    && BelowAt(lines, j + 1, top) - lines[j].end <= BOX_LINE_GAP && OnBox(lines[j], fill, span)
    && bottom - lines[j].start <= BOX_MAX_HEIGHT
  }

  /** The i-th line lies above the box, which may take it and every line between. */
  ghost predicate ReachedUp(
    lines: seq<Run>, i: nat, upTo: nat, top: nat, bottom: nat, fill: (nat, nat, nat) -> real, span: Run)
    requires i < |lines| && upTo <= |lines|
  {
    forall j :: i <= j < upTo && lines[j].end <= top ==> TakesUp(lines, j, top, bottom, fill, span)
  }

  /** Reaching a line from one further up takes that one too. */
  lemma ReachedUpStep(
    lines: seq<Run>, i: nat, k: nat, top: nat, bottom: nat, fill: (nat, nat, nat) -> real, span: Run)
    requires i < k <= |lines|
    ensures ReachedUp(lines, i, k, top, bottom, fill, span) <==>
              && ReachedUp(lines, i, k - 1, top, bottom, fill, span)
              && (lines[k - 1].end <= top ==> TakesUp(lines, k - 1, top, bottom, fill, span))
  {}

  predicate StopsUp(lines: seq<Run>, j: nat, top: nat, bottom: nat, fill: (nat, nat, nat) -> real, span: Run)
    requires j < |lines|
  {
    lines[j].end <= top && !TakesUp(lines, j, top, bottom, fill, span)
  }

  lemma {:induction false} GrownTopNext(
    lines: seq<Run>, k: nat, top: nat, bottom: nat, fill: (nat, nat, nat) -> real, span: Run)
    requires Apart(lines) && 0 < k <= |lines|
    ensures GrownTop(lines, k, top, BelowAt(lines, k, top), bottom, fill, span) ==
              if StopsUp(lines, k - 1, top, bottom, fill, span) then BelowAt(lines, k, top)
              else GrownTop(lines, k - 1, top, BelowAt(lines, k - 1, top), bottom, fill, span)
  {}

  lemma StartsAbove(lines: seq<Run>, i: nat, k: nat, top: nat)
    requires Apart(lines) && i < k <= |lines| && lines[k - 1].end <= top
    ensures lines[i].start < BelowAt(lines, k, top)
  {}

  lemma {:induction false} GrownTopFrom(
    lines: seq<Run>, k: nat, top: nat, bottom: nat, fill: (nat, nat, nat) -> real, span: Run, i: nat)
    requires Apart(lines) && k <= |lines| && i < k && lines[i].end <= top
    ensures ReachedUp(lines, i, k, top, bottom, fill, span) <==>
              GrownTop(lines, k, top, BelowAt(lines, k, top), bottom, fill, span) <= lines[i].start
  {
    ReachedUpStep(lines, i, k, top, bottom, fill, span);
    GrownTopNext(lines, k, top, bottom, fill, span);
    if StopsUp(lines, k - 1, top, bottom, fill, span) {
      StartsAbove(lines, i, k, top);
    } else if i < k - 1 {
      GrownTopFrom(lines, k - 1, top, bottom, fill, span, i);
    } else {
      GrownTopBelow(lines, k - 1, top, lines[i].start, bottom, fill, span);
    }
  }

  lemma {:induction false} GrownTopBelow(
    lines: seq<Run>, k: nat, top: nat, t: nat, bottom: nat, fill: (nat, nat, nat) -> real, span: Run)
    requires Apart(lines) && k <= |lines| && t <= top
    requires forall j :: 0 <= j < k && lines[j].end <= top ==> lines[j].start < t
    ensures var u := GrownTop(lines, k, top, t, bottom, fill, span);
            u <= t && (u == t || exists j :: 0 <= j < k && lines[j].end <= top && lines[j].start == u)
  {
    if k > 0 {
      var r := lines[k - 1];
      if r.end > top {
        GrownTopBelow(lines, k - 1, top, t, bottom, fill, span);
      } else if Takes(r, t - r.end, bottom - r.start, fill, span) {
        GrownTopBelow(lines, k - 1, top, r.start, bottom, fill, span);
      }
    }
  }

  /**
   * The grown box takes in a line above it exactly when that and every line between are caption lines,
   * each close to the next and none further up than the cap; and it ends at a line or where it was.
   */
  lemma GrowsUpIff(lines: seq<Run>, top: nat, bottom: nat, fill: (nat, nat, nat) -> real, span: Run, i: nat)
    requires Apart(lines) && i < |lines| && lines[i].end <= top
    ensures var t := GrownTop(lines, |lines|, top, top, bottom, fill, span);
      && (t <= lines[i].start <==> ReachedUp(lines, i, |lines|, top, bottom, fill, span))
      && (t == top || exists j :: 0 <= j < |lines| && lines[j].end <= top && lines[j].start == t)
  {
    GrownTopFrom(lines, |lines|, top, bottom, fill, span, i);
    GrownTopBelow(lines, |lines|, top, top, bottom, fill, span);
  }

  /** Where the box or its last line ends, above the k-th line from here down. */
  function AboveAt(lines: seq<Run>, k: nat, bottom: nat): nat {
    if 0 < k <= |lines| && lines[k - 1].start >= bottom then lines[k - 1].end else bottom
  }

  predicate TakesDown(lines: seq<Run>, j: nat, top: nat, bottom: nat, fill: (nat, nat, nat) -> real, span: Run)
    requires j < |lines|
  {
    && lines[j].start - AboveAt(lines, j, bottom) <= BOX_LINE_GAP && OnBox(lines[j], fill, span)
    && lines[j].end - top <= BOX_MAX_HEIGHT
  }

  ghost predicate ReachedDown(
    lines: seq<Run>, i: nat, from: nat, top: nat, bottom: nat, fill: (nat, nat, nat) -> real, span: Run)
    requires i < |lines|
  {
    forall j :: from <= j <= i && lines[j].start >= bottom ==> TakesDown(lines, j, top, bottom, fill, span)
  }

  lemma ReachedDownStep(
    lines: seq<Run>, i: nat, k: nat, top: nat, bottom: nat, fill: (nat, nat, nat) -> real, span: Run)
    requires k <= i < |lines|
    ensures ReachedDown(lines, i, k, top, bottom, fill, span) <==>
              && ReachedDown(lines, i, k + 1, top, bottom, fill, span)
              && (lines[k].start >= bottom ==> TakesDown(lines, k, top, bottom, fill, span))
  {}

  predicate StopsDown(lines: seq<Run>, j: nat, top: nat, bottom: nat, fill: (nat, nat, nat) -> real, span: Run)
    requires j < |lines|
  {
    lines[j].start >= bottom && !TakesDown(lines, j, top, bottom, fill, span)
  }

  lemma {:induction false} GrownBottomNext(
    lines: seq<Run>, k: nat, top: nat, bottom: nat, fill: (nat, nat, nat) -> real, span: Run)
    requires Apart(lines) && k < |lines|
    ensures GrownBottom(lines, k, top, bottom, AboveAt(lines, k, bottom), fill, span) ==
              if StopsDown(lines, k, top, bottom, fill, span) then AboveAt(lines, k, bottom)
              else GrownBottom(lines, k + 1, top, bottom, AboveAt(lines, k + 1, bottom), fill, span)
  {}

  lemma {:induction false} GrownBottomFrom(
    lines: seq<Run>, k: nat, top: nat, bottom: nat, fill: (nat, nat, nat) -> real, span: Run, i: nat)
    requires Apart(lines) && k <= i < |lines| && lines[i].start >= bottom
    ensures ReachedDown(lines, i, k, top, bottom, fill, span) <==>
              GrownBottom(lines, k, top, bottom, AboveAt(lines, k, bottom), fill, span) >= lines[i].end
    decreases |lines| - k
  {
    ReachedDownStep(lines, i, k, top, bottom, fill, span);
    GrownBottomNext(lines, k, top, bottom, fill, span);
    if StopsDown(lines, k, top, bottom, fill, span) {
      assert AboveAt(lines, k, bottom) <= lines[k].start <= lines[i].start < lines[i].end;
    } else if i > k {
      GrownBottomFrom(lines, k + 1, top, bottom, fill, span, i);
    } else {
      GrownBottomAbove(lines, k + 1, top, bottom, lines[i].end, fill, span);
    }
  }

  lemma {:induction false} GrownBottomAbove(
    lines: seq<Run>, k: nat, top: nat, bottom: nat, b: nat, fill: (nat, nat, nat) -> real, span: Run)
    requires Apart(lines) && b >= bottom
    requires forall j :: k <= j < |lines| && lines[j].start >= bottom ==> lines[j].end > b
    ensures var c := GrownBottom(lines, k, top, bottom, b, fill, span);
            c >= b && (c == b || exists j :: k <= j < |lines| && lines[j].start >= bottom && lines[j].end == c)
    decreases |lines| - k
  {
    if k < |lines| {
      var r := lines[k];
      if r.start < bottom {
        GrownBottomAbove(lines, k + 1, top, bottom, b, fill, span);
      } else if Takes(r, r.start - b, r.end - top, fill, span) {
        GrownBottomAbove(lines, k + 1, top, bottom, r.end, fill, span);
      }
    }
  }

  /** The same below it. */
  lemma GrowsDownIff(lines: seq<Run>, top: nat, bottom: nat, fill: (nat, nat, nat) -> real, span: Run, i: nat)
    requires Apart(lines) && i < |lines| && lines[i].start >= bottom
    ensures var b := GrownBottom(lines, 0, top, bottom, bottom, fill, span);
      && (b >= lines[i].end <==> ReachedDown(lines, i, 0, top, bottom, fill, span))
      && (b == bottom || exists j :: 0 <= j < |lines| && lines[j].start >= bottom && lines[j].end == b)
  {
    GrownBottomFrom(lines, 0, top, bottom, fill, span, i);
    GrownBottomAbove(lines, 0, top, bottom, bottom, fill, span);
  }
}
