/** When a recording's row is left live with no sitting to ready it. */
module SittingsStranding {
  import opened Prelude
  import opened Sittings
  import opened SittingsInvariants

  /** Every sitting is torn down and no finalize is deferred. */
  ghost predicate Quiet(w: World) {
    w.unfinalized == [] && forall i :: 0 <= i < |w.sittings| ==> w.sittings[i].phase.Torn?
  }

  /** A row left live has a sitting that answers for it and whose finish() failed for good without doing its work. */
  lemma NoStrandedRow(run: seq<Event>, w: World)
    requires IsRun(EMPTY, run, w) && Quiet(w)
    requires w.row.Some? && w.row.value.live
    ensures exists i :: 0 <= i < |w.sittings| && w.sittings[i].failed && Answers(w, i)
  {
    RunsKeep(EMPTY, run, w);
    var k :| 0 <= k < |w.sittings| && Answers(w, k);
  }

  // ---- Which finish() readied which opening --------------------------------

  /** A sitting readies the opening its token names, or any when it has none; and only once closed. */
  ghost predicate ReadiedOk(w: World, i: nat)
    requires i < |w.sittings|
  {
    var s := w.sittings[i];
    && (s.readied.Some? ==>
      && s.rowOpened && (s.phase.Torn? || s.phase.Retrying?)
      && s.readied.value < w.nextToken
      && (s.Token().Some? ==> s.readied == s.Token()))
    && (s.create.Gone? ==> w.row.None?)
  }

  /** Some sitting's finish() has readied the row since it was last opened. */
  ghost predicate Readied(w: World)
    requires w.row.Some?
  {
    exists i :: 0 <= i < |w.sittings| && w.sittings[i].readied == Some(w.row.value.openedAt)
  }

  /** The row was last opened by a sitting that knows it, or by one whose create() raised. */
  ghost predicate Known(w: World, i: nat)
    requires i < |w.sittings| && w.row.Some?
  {
    w.sittings[i].create == Opened(w.row.value.openedAt) || w.sittings[i].create.Raised?
  }

  ghost predicate RowOk(w: World) {
    w.row.Some? ==> (w.row.value.live <==> !Readied(w)) && exists i :: 0 <= i < |w.sittings| && Known(w, i)
  }

  ghost predicate Readyings(w: World) {
    (forall i :: 0 <= i < |w.sittings| ==> ReadiedOk(w, i)) && RowOk(w)
  }

  /** What every step but create() and finish() leaves alone. */
  ghost predicate Untouched(w: World, t: World, i: nat)
    requires i < |w.sittings| <= |t.sittings|
  {
    var s, u := w.sittings[i], t.sittings[i];
    && u.readied == s.readied && u.create == s.create && u.rowOpened == s.rowOpened && u.failed == s.failed
    && (s.phase.Torn? || s.phase.Retrying? ==> u.phase.Torn? || u.phase.Retrying?)
  }

  lemma UntouchedKeeps(w: World, t: World)
    requires Readyings(w) && |w.sittings| <= |t.sittings| && t.nextToken == w.nextToken
    requires t.row == w.row || t.row.None?
    requires forall i :: 0 <= i < |w.sittings| ==> Untouched(w, t, i)
    requires forall i :: |w.sittings| <= i < |t.sittings| ==> t.sittings[i] == NEWCOMER
    ensures Readyings(t)
  {
    forall i | 0 <= i < |t.sittings| ensures ReadiedOk(t, i) {
      if i < |w.sittings| { assert ReadiedOk(w, i) && Untouched(w, t, i); }
    }
    if t.row.Some? {
      var k :| 0 <= k < |w.sittings| && Known(w, k);
      assert Untouched(w, t, k) && Known(t, k);
      if Readied(w) {
        var i :| 0 <= i < |w.sittings| && w.sittings[i].readied == Some(w.row.value.openedAt);
        assert Untouched(w, t, i) && Readied(t);
      }
      if Readied(t) {
        var i :| 0 <= i < |t.sittings| && t.sittings[i].readied == Some(w.row.value.openedAt);
        assert Untouched(w, t, i) && Readied(w);
      }
    }
  }

  /** The sittings' steps between their store calls touch no opening. */
  lemma BeginUntouched(w: World, i: nat)
    requires i < |w.sittings|
    ensures Untouched(w, BeginStep(w), i)
  {}

  lemma FinalizeUntouched(w: World, e: Event, i: nat)
    requires LinksForward(w.sittings) && Enabled(w, e) && e.Finalize? && i < |w.sittings|
    ensures |Step(w, e).sittings| == |w.sittings| && Untouched(w, Step(w, e), i)
  {}

  lemma RetryUntouched(w: World, e: Event, i: nat)
    requires LinksForward(w.sittings) && Enabled(w, e) && e.Retry? && i < |w.sittings|
    ensures |Step(w, e).sittings| == |w.sittings| && Untouched(w, Step(w, e), i)
  {}

  predicate StoreCall(e: Event) { e.CreateRuns? || e.FinishRuns? || e.OpenRow? }

  lemma StepUntouched(w: World, e: Event, i: nat)
    requires LinksForward(w.sittings) && Enabled(w, e) && !StoreCall(e) && i < |w.sittings|
    ensures |w.sittings| <= |Step(w, e).sittings| && Untouched(w, Step(w, e), i)
  {
    match e
    case Begin => BeginUntouched(w, i);
    case Finalize(_, _) => FinalizeUntouched(w, e, i);
    case Retry(_, _) => RetryUntouched(w, e, i);
    case _ =>
  }

  lemma OpenRowReadyings(w: World, i: nat)
    requires Inv(w) && Readyings(w) && Enabled(w, OpenRow(i))
    ensures Readyings(Step(w, OpenRow(i)))
  {
    var t := Step(w, OpenRow(i));
    assert SittingOk(w, i) && ReadiedOk(w, i);
    forall k | 0 <= k < |t.sittings| ensures ReadiedOk(t, k) { assert ReadiedOk(w, k); }
    if t.row.Some? {
      var k :| 0 <= k < |w.sittings| && Known(w, k);
      assert Known(t, k);
      SameReadied(w, t);
    }
  }

  lemma SameReadied(w: World, t: World)
    requires |t.sittings| == |w.sittings| && t.row.Some? && w.row.Some? && t.row.value.openedAt == w.row.value.openedAt
    requires forall i :: 0 <= i < |w.sittings| ==> t.sittings[i].readied == w.sittings[i].readied
    ensures Readied(w) <==> Readied(t)
  {}

  /** A store row once deleted stays so: only the first sitting creates it, and before any other starts. */
  lemma CreateReadiedOk(w: World, i: nat, outcome: Outcome, k: nat)
    requires Inv(w) && Readyings(w) && Enabled(w, CreateRuns(i, outcome)) && k < |w.sittings|
    ensures ReadiedOk(CreateStep(w, i, outcome), k)
  {
    assert SittingOk(w, i) && SittingOk(w, k) && ReadiedOk(w, k);
  }

  /** A fresh opening has been readied by nobody. */
  lemma CreateRowOk(w: World, i: nat, outcome: Outcome)
    requires Inv(w) && Readyings(w) && Enabled(w, CreateRuns(i, outcome))
    ensures RowOk(CreateStep(w, i, outcome))
  {
    var t := CreateStep(w, i, outcome);
    if t.row.Some? {
      if t.row == w.row {
        SameReadied(w, t);
        var k :| 0 <= k < |w.sittings| && Known(w, k);
        assert SittingOk(w, i);
        assert Known(t, k);
      } else {
        assert Known(t, i);
        forall k | 0 <= k < |t.sittings| ensures t.sittings[k].readied != Some(t.row.value.openedAt) {
          assert ReadiedOk(w, k);
        }
      }
    }
  }

  lemma FinishCallReadyings(w: World, i: nat, applied: bool)
    requires Inv(w) && Readyings(w) && i < |w.sittings|
    requires w.sittings[i].phase.Finishing? || w.sittings[i].phase.Retrying?
    ensures RowOk(FinishCall(w, i, applied))
  {
    var t := FinishCall(w, i, applied);
    if t != w {
      var k :| 0 <= k < |w.sittings| && Known(w, k);
      assert Known(t, k);
      assert t.sittings[i].readied == Some(t.row.value.openedAt);
    }
  }

  lemma FinishCallReadiedOk(w: World, i: nat, applied: bool, k: nat)
    requires Inv(w) && Readyings(w) && i < |w.sittings| && k < |w.sittings|
    requires w.sittings[i].phase.Finishing? || w.sittings[i].phase.Retrying?
    ensures k != i ==> ReadiedOk(FinishCall(w, i, applied), k)
    ensures ReadiedOk(Put(FinishCall(w, i, applied), i, FinishCall(w, i, applied).sittings[i].(phase := Torn)), i)
  {
    assert SittingOk(w, i) && ReadiedOk(w, i) && ReadiedOk(w, k);
  }

  lemma FinishAnsweredSame(w: World, i: nat, outcome: Outcome, k: nat)
    requires Enabled(w, FinishRuns(i, outcome)) && k < |w.sittings|
    ensures var t := FinishAnswered(w, i, outcome);
      && |t.sittings| == |w.sittings| && t.row == w.row && t.nextToken == w.nextToken
      && t.sittings[k].readied == w.sittings[k].readied && t.sittings[k].create == w.sittings[k].create
      && t.sittings[k].rowOpened == w.sittings[k].rowOpened
      && t.sittings[k].phase == (if k == i then Torn else w.sittings[k].phase)
      && (outcome != Hard(false) ==> t.sittings[k].failed ==> w.sittings[k].failed)
  {}

  lemma AnsweredReadyings(w: World, i: nat, outcome: Outcome)
    requires Enabled(w, FinishRuns(i, outcome)) && RowOk(w)
    requires forall k :: 0 <= k < |w.sittings| && k != i ==> ReadiedOk(w, k)
    requires ReadiedOk(Put(w, i, w.sittings[i].(phase := Torn)), i)
    ensures Readyings(FinishAnswered(w, i, outcome))
  {
    var t := FinishAnswered(w, i, outcome);
    forall k | 0 <= k < |w.sittings|
      ensures k < |t.sittings| && ReadiedOk(t, k) && t.sittings[k].readied == w.sittings[k].readied
    {
      FinishAnsweredSame(w, i, outcome, k);
      if k != i { assert ReadiedOk(w, k); }
    }
    FinishAnsweredSame(w, i, outcome, i);
    if t.row.Some? {
      SameReadied(w, t);
      var k :| 0 <= k < |w.sittings| && Known(w, k);
      FinishAnsweredSame(w, i, outcome, k);
      assert Known(t, k);
    }
  }

  lemma FinishReadyings(w: World, i: nat, outcome: Outcome)
    requires Inv(w) && Readyings(w) && Enabled(w, FinishRuns(i, outcome))
    ensures Readyings(FinishStep(w, i, outcome))
  {
    var applied := outcome.Ok? || outcome.applied;
    var u := FinishCall(w, i, applied);
    FinishCallReadyings(w, i, applied);
    FinishCallReadiedOk(w, i, applied, i);
    forall k | 0 <= k < |u.sittings| && k != i ensures ReadiedOk(u, k) { FinishCallReadiedOk(w, i, applied, k); }
    AnsweredReadyings(u, i, outcome);
  }

  lemma StepReadyings(w: World, e: Event)
    requires Inv(w) && Readyings(w) && Enabled(w, e)
    ensures Readyings(Step(w, e))
  {
    match e
    case CreateRuns(i, outcome) =>
      forall k | 0 <= k < |w.sittings| ensures ReadiedOk(CreateStep(w, i, outcome), k) {
        CreateReadiedOk(w, i, outcome, k);
      }
      CreateRowOk(w, i, outcome);
    case FinishRuns(i, outcome) => FinishReadyings(w, i, outcome);
    case OpenRow(i) => OpenRowReadyings(w, i);
    case _ => OthersReadyings(w, e);
  }

  lemma OthersReadyings(w: World, e: Event)
    requires Readyings(w) && LinksForward(w.sittings) && Enabled(w, e) && !StoreCall(e)
    ensures Readyings(Step(w, e))
  {
    var t := Step(w, e);
    forall i | 0 <= i < |w.sittings| ensures |w.sittings| <= |t.sittings| && Untouched(w, t, i) {
      StepUntouched(w, e, i);
    }
    StepNewcomer(w, e);
    forall i | |w.sittings| <= i < |t.sittings| ensures t.sittings[i] == NEWCOMER {
      assert t.sittings[i] == t.sittings[|w.sittings|..][i - |w.sittings|];
    }
    StepRow(w, e);
    UntouchedKeeps(w, t);
  }

  lemma StepRow(w: World, e: Event)
    requires LinksForward(w.sittings) && Enabled(w, e) && !StoreCall(e)
    ensures Step(w, e).nextToken == w.nextToken && (Step(w, e).row == w.row || Step(w, e).row.None?)
  {}

  lemma {:induction false} RunsReadyings(w: World, run: seq<Event>, end: World)
    requires Inv(w) && Readyings(w) && IsRun(w, run, end)
    ensures Inv(end) && Readyings(end)
    decreases |run|
  {
    if |run| > 0 {
      StepKeeps(w, run[0]);
      StepReadyings(w, run[0]);
      RunsReadyings(Step(w, run[0]), run[1..], end);
    }
  }

  // ---- Exactly when a row is stranded --------------------------------------

  /**
   * After any run with nothing left to do: the row is live exactly when a sitting that answers for
   * it has failed for good and no finish() has readied it since it was last opened.
   */
  lemma QuietLiveIff(run: seq<Event>, w: World)
    requires IsRun(EMPTY, run, w) && Quiet(w) && w.row.Some?
    ensures w.row.value.live <==>
      !Readied(w) && exists i :: 0 <= i < |w.sittings| && w.sittings[i].failed && Answers(w, i)
  {
    RunsReadyings(EMPTY, run, w);
    if w.row.value.live { NoStrandedRow(run, w); }
  }

  /** Every create() or reopen() of the run was answered. */
  ghost predicate AllAnswered(w: World) {
    forall i :: 0 <= i < |w.sittings| ==> !w.sittings[i].create.Raised?
  }

  /** The sitting that opened the row last, and every finish() that can have readied it is its own. */
  lemma NewestOpener(run: seq<Event>, w: World) returns (n: nat)
    requires IsRun(EMPTY, run, w) && w.row.Some? && AllAnswered(w)
    ensures Inv(w) && Readyings(w)
    ensures n < |w.sittings| && w.sittings[n].create == Opened(w.row.value.openedAt)
    ensures forall j :: n < j < |w.sittings| ==> !w.sittings[j].create.Opened?
    ensures Readied(w) <==> w.sittings[n].readied.Some?
  {
    RunsReadyings(EMPTY, run, w);
    n :| 0 <= n < |w.sittings| && Known(w, n);
    forall j | n < j < |w.sittings| ensures !w.sittings[j].create.Opened? { assert SittingOk(w, j); }
    if Readied(w) {
      var k :| 0 <= k < |w.sittings| && w.sittings[k].readied == Some(w.row.value.openedAt);
      OnlyOpenerReadies(w, k);
    }
    assert ReadiedOk(w, n);
  }

  lemma OnlyOpenerReadies(w: World, k: nat)
    requires Inv(w) && Readyings(w) && AllAnswered(w) && w.row.Some? && k < |w.sittings|
    requires w.sittings[k].readied == Some(w.row.value.openedAt)
    ensures w.sittings[k].create == Opened(w.row.value.openedAt)
  {
    assert SittingOk(w, k) && ReadiedOk(w, k);
  }

  /**
   * With every create() answered and nothing left to do: the row is live exactly when the finish() of
   * the sitting that opened it last failed for good, and no call of it ever did its work.
   */
  lemma StrandedIff(run: seq<Event>, w: World) returns (n: nat)
    requires IsRun(EMPTY, run, w) && Quiet(w) && w.row.Some? && AllAnswered(w)
    ensures n < |w.sittings| && w.sittings[n].create == Opened(w.row.value.openedAt)
    ensures forall j :: n < j < |w.sittings| ==> !w.sittings[j].create.Opened?
    ensures w.row.value.live <==> w.sittings[n].failed && w.sittings[n].readied.None?
  {
    n := NewestOpener(run, w);
    if w.row.value.live {
      var k :| 0 <= k < |w.sittings| && Answers(w, k);
      assert SittingOk(w, k) && ReadiedOk(w, k);
    }
  }

  lemma HasMember(s: seq<nat>)
    ensures s != [] ==> exists k :: k in s
  {
    if s != [] { assert s[0] in s; }
  }

  /**
   * The call that strands it: with every other sitting's finalize settled and none of them failed,
   * a finish() leaves a live row behind with nothing deferred exactly when it fails for good
   * without doing its work.
   */
  lemma StrandsIff(run: seq<Event>, w: World, i: nat, outcome: Outcome)
    requires IsRun(EMPTY, run, w) && Enabled(w, FinishRuns(i, outcome))
    requires w.row.Some? && w.row.value.live
    requires forall k :: 0 <= k < |w.sittings| && k != i ==> Settled(w, k) && !w.sittings[k].failed
    ensures FinishStep(w, i, outcome).unfinalized == [] && FinishStep(w, i, outcome).row.value.live <==>
      outcome == Hard(false)
  {
    RunsKeep(EMPTY, run, w);
    assert SittingOk(w, i);
    var k :| 0 <= k < |w.sittings| && Answers(w, k);
    assert k == i && Matches(w.row, w.sittings[i].phase.token);
    forall d | d in w.unfinalized ensures d == i { assert Deferred(w, d); }
    HasMember(Without(w.unfinalized, i));
  }

  // ---- Runs without such a failure -----------------------------------------

  /** No finish() of the run failed for good without doing its work. */
  predicate NoHardFinish(run: seq<Event>) {
    forall e :: e in run && e.FinishRuns? ==> e.outcome != Hard(false)
  }

  lemma {:induction false} StepNoFailed(w: World, e: Event, i: nat)
    requires LinksForward(w.sittings) && Enabled(w, e) && (e.FinishRuns? ==> e.outcome != Hard(false))
    requires i < |Step(w, e).sittings| && (i < |w.sittings| ==> !w.sittings[i].failed)
    ensures !Step(w, e).sittings[i].failed
  {
    match e
    case FinishRuns(j, outcome) =>
      FinishAnsweredSame(FinishCall(w, j, outcome.Ok? || outcome.applied), j, outcome, i);
    case OpenRow(j) =>
    case CreateRuns(j, outcome) =>
    case _ => if i < |w.sittings| { StepUntouched(w, e, i); } else { StepNewcomer(w, e); }
  }

  lemma StepNewcomer(w: World, e: Event)
    requires LinksForward(w.sittings) && Enabled(w, e) && !StoreCall(e)
    ensures Step(w, e).sittings[|w.sittings|..] == if e.Begin? then [NEWCOMER] else []
  {}

  lemma {:induction false} NoHardFinishNoFailed(w: World, run: seq<Event>, end: World)
    requires IsRun(w, run, end) && NoHardFinish(run)
    requires forall i :: 0 <= i < |w.sittings| ==> !w.sittings[i].failed
    ensures forall i :: 0 <= i < |end.sittings| ==> !end.sittings[i].failed
    decreases |run|
  {
    if |run| > 0 {
      assert run[0] in run;
      forall i | 0 <= i < |Step(w, run[0]).sittings| ensures !Step(w, run[0]).sittings[i].failed {
        StepNoFailed(w, run[0], i);
      }
      forall e | e in run[1..] ensures e in run {}
      NoHardFinishNoFailed(Step(w, run[0]), run[1..], end);
    }
  }

  /** Once every sitting is torn down and nothing is deferred, the row is ready (unless deleted). */
  lemma QuietMeansReady(run: seq<Event>, w: World)
    requires IsRun(EMPTY, run, w) && Quiet(w) && NoHardFinish(run)
    ensures w.row.Some? ==> !w.row.value.live
  {
    NoHardFinishNoFailed(EMPTY, run, w);
    if w.row.Some? && w.row.value.live { NoStrandedRow(run, w); }
  }

  /** Such a failure does strand a row, at the end of a first sitting that started and closed cleanly. */
  lemma HardFinishStrands()
    ensures exists run, w :: IsRun(EMPTY, run, w) && Quiet(w) && w.row.Some? && w.row.value.live
  {
    var run, w := FirstSittingFinishing();
    var all, t := Then(run, w, FinishRuns(0, Hard(false)));
    assert IsRun(EMPTY, all, t) && Quiet(t);
  }
}
