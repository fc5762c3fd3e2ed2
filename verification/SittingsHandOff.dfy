/**
 * What a sitting's finalize does: it is handed to a later sitting that is recording into the row, it
 * waits for the store, or it calls finish(); over every interleaving of a recording's sittings.
 */
module SittingsHandOff {
  import opened Prelude
  import opened Sittings
  import opened SittingsInvariants

  // ---- The chain of successors ---------------------------------------------

  /** Each sitting of the path is the successor of the one before; the first is `from`. */
  ghost predicate IsPath(sittings: seq<Sitting>, from: Option<nat>, path: seq<nat>) {
    && |path| > 0 && from == Some(path[0])
    && (forall k :: 0 <= k < |path| ==> path[k] < |sittings|)
    && (forall k :: 0 < k < |path| ==> sittings[path[k - 1]].successor == Some(path[k]))
  }

  /** A sitting has opened the row and has not closed. */
  predicate IsRecording(s: Sitting) { s.rowOpened && (s.phase.Starting? || s.phase.Live?) }

  /** Some sitting along the successors of sitting i is still recording into the row. */
  ghost predicate LaterRecords(sittings: seq<Sitting>, i: nat)
    requires i < |sittings|
  {
    RecordsFrom(sittings, sittings[i].successor)
  }

  ghost predicate RecordsFrom(sittings: seq<Sitting>, from: Option<nat>) {
    exists path :: IsPath(sittings, from, path) && IsRecording(sittings[path[|path| - 1]])
  }

  lemma {:induction false} WalkFinds(sittings: seq<Sitting>, from: Option<nat>) returns (path: seq<nat>)
    requires LinksForward(sittings) && ResumedLive(sittings, from)
    ensures IsPath(sittings, from, path) && IsRecording(sittings[path[|path| - 1]])
    decreases if from.Some? && from.value < |sittings| then |sittings| - from.value else 0
  {
    var s := sittings[from.value];
    if s.rowOpened && !s.Closed() {
      path := [from.value];
    } else {
      var rest := WalkFinds(sittings, s.successor);
      path := [from.value] + rest;
      forall k | 0 < k < |path| ensures sittings[path[k - 1]].successor == Some(path[k]) {
        assert path[k] == rest[k - 1] && (k > 1 ==> path[k - 1] == rest[k - 2]);
      }
    }
  }

  lemma {:induction false} WalkReaches(sittings: seq<Sitting>, from: Option<nat>, path: seq<nat>)
    requires LinksForward(sittings) && IsPath(sittings, from, path) && IsRecording(sittings[path[|path| - 1]])
    ensures ResumedLive(sittings, from)
    decreases |path|
  {
    var s := sittings[path[0]];
    if |path| > 1 {
      var rest := path[1..];
      assert forall k :: 0 < k < |rest| ==> rest[k - 1] == path[k] && rest[k] == path[k + 1];
      WalkReaches(sittings, s.successor, rest);
    }
  }

  /** The walk along the successors answers yes exactly when a sitting on them is recording into the row. */
  lemma {:induction false} WalkIff(sittings: seq<Sitting>, from: Option<nat>)
    requires LinksForward(sittings)
    ensures ResumedLive(sittings, from) <==> RecordsFrom(sittings, from)
  {
    if ResumedLive(sittings, from) { var path := WalkFinds(sittings, from); }
    if RecordsFrom(sittings, from) {
      var path :| IsPath(sittings, from, path) && IsRecording(sittings[path[|path| - 1]]);
      WalkReaches(sittings, from, path);
    }
  }

  // ---- What a finalize comes to --------------------------------------------

  /** Nothing but sitting i's own record, and its place among the deferred, has changed. */
  ghost predicate OnlySitting(w: World, t: World, i: nat) {
    && t.row == w.row && t.nextToken == w.nextToken && t.closing == w.closing
    && i < |w.sittings| == |t.sittings| && t.sittings == w.sittings[i := t.sittings[i]]
    && (forall k :: k != i ==> (k in t.unfinalized <==> k in w.unfinalized))
  }

  /** It is about to call finish(), with the token its create() was given if it was given one. */
  predicate CallsFinish(s: Sitting) {
    && (s.phase.Finishing? || s.phase.Retrying?)
    && s.phase.token == if s.create.Opened? then Some(s.create.token) else None
  }

  /**
   * A teardown's finalize, after any run: a start that never reached the store has nothing to finish;
   * with writes held back it is deferred; with a later sitting recording it is handed off; otherwise,
   * and only then, finish() is called.
   */
  lemma FinalizeDecides(run: seq<Event>, w: World, i: nat, writesStored: bool)
    requires IsRun(EMPTY, run, w) && Enabled(w, Finalize(i, writesStored))
    ensures LinksForward(w.sittings) && i < |w.sittings|
    ensures var s, t := w.sittings[i], Step(w, Finalize(i, writesStored));
      && OnlySitting(w, t, i)
      && var began := s.rowOpened || !s.startFailed;
      && (CallsFinish(t.sittings[i]) <==> began && writesStored && !LaterRecords(w.sittings, i))
      && (t.sittings[i].phase.Torn? <==> !CallsFinish(t.sittings[i]))
      && (i in t.unfinalized <==> began && !writesStored)
      && (began && writesStored && LaterRecords(w.sittings, i) ==> t.sittings[i].handedOff)
  {
    RunsKeep(EMPTY, run, w);
    assert i in w.unfinalized ==> Deferred(w, i);
    WalkIff(w.sittings, w.sittings[i].successor);
  }

  /** A deferred finalize tried again decides the same way, and stays deferred until it is handed off or finished. */
  lemma RetryDecides(run: seq<Event>, w: World, i: nat, writesStored: bool)
    requires IsRun(EMPTY, run, w) && Enabled(w, Retry(i, writesStored))
    ensures LinksForward(w.sittings) && i < |w.sittings|
    ensures var t := Step(w, Retry(i, writesStored));
      && OnlySitting(w, t, i)
      && (CallsFinish(t.sittings[i]) <==> writesStored && !LaterRecords(w.sittings, i))
      && (t.sittings[i].phase.Torn? <==> !CallsFinish(t.sittings[i]))
      && (i in t.unfinalized <==> !(writesStored && LaterRecords(w.sittings, i)))
      && (writesStored && LaterRecords(w.sittings, i) ==> t.sittings[i].handedOff)
  {
    RunsKeep(EMPTY, run, w);
    WalkIff(w.sittings, w.sittings[i].successor);
  }

  /** The row finish() readied: the one its token opened, or any when it had none. */
  lemma FinishReadies(w: World, i: nat, outcome: Outcome)
    requires Enabled(w, FinishRuns(i, outcome)) && w.row.Some? && CallsFinish(w.sittings[i])
    ensures var s, t := w.sittings[i], FinishStep(w, i, outcome);
      && t.row.Some? && t.row.value.openedAt == w.row.value.openedAt
      && (t.row.value.live <==>
           && w.row.value.live
           && !((outcome.Ok? || outcome.applied) && (s.create.Opened? ==> s.create.token == w.row.value.openedAt)))
  {}

  lemma FinishRecords(w: World, i: nat, outcome: Outcome)
    requires Enabled(w, FinishRuns(i, outcome))
    ensures var t := FinishStep(w, i, outcome);
      && |t.sittings| == |w.sittings| && t.sittings[i].phase == Torn && (t.row.Some? <==> w.row.Some?)
      && (i in t.unfinalized <==> outcome.Retryable? && (i in w.unfinalized || w.sittings[i].phase.Finishing?))
      && (outcome.Ok? ==>
            if t.row.Some? && t.row.value.live then t.sittings[i].handedOff else t.sittings[i].finished)
  {}

  /**
   * finish() answered, after any run: it readied the row if it did its work and the row is the one
   * its token opened, or it had no token; answered, the sitting is finished unless the row is a later
   * sitting's, which it is handed to; on an error a retry can help it is deferred, on any other given up.
   */
  lemma FinishDecides(run: seq<Event>, w: World, i: nat, outcome: Outcome)
    requires IsRun(EMPTY, run, w) && Enabled(w, FinishRuns(i, outcome))
    ensures LinksForward(w.sittings) && i < |w.sittings|
    ensures var s, t := w.sittings[i], Step(w, FinishRuns(i, outcome));
      && i < |t.sittings| && t.sittings[i].phase == Torn && CallsFinish(s)
      && (t.row.Some? <==> w.row.Some?)
      && (w.row.Some? ==>
            (t.row.value.live <==>
              && w.row.value.live
              && !((outcome.Ok? || outcome.applied) && (s.create.Opened? ==> s.create.token == w.row.value.openedAt))))
      && (i in t.unfinalized <==> outcome.Retryable?)
      && (outcome.Ok? ==>
            if t.row.Some? && t.row.value.live then t.sittings[i].handedOff else t.sittings[i].finished)
  {
    RunsKeep(EMPTY, run, w);
    assert SittingOk(w, i);
    if w.row.Some? { FinishReadies(w, i, outcome); }
    FinishRecords(w, i, outcome);
  }

  // ---- Under a newcomer ----------------------------------------------------

  /** The sittings a newcomer finds unfinished: deferred ones, and the one closing. */
  predicate Unfinished(w: World, k: nat) { k in w.unfinalized || w.closing == Some(k) }

  /** Once a sitting begins, every unfinished one has it for its successor. */
  lemma BeginLinks(run: seq<Event>, w: World, k: nat)
    requires IsRun(EMPTY, run, w) && Enabled(w, Begin) && Unfinished(w, k)
    ensures LinksForward(w.sittings)
    ensures var t, n := Step(w, Begin), |w.sittings|;
      && k < n < |t.sittings| && t.sittings[n] == NEWCOMER && t.sittings[k].successor == Some(n)
      && IsPath(t.sittings, t.sittings[k].successor, [n])
  {
    RunsKeep(EMPTY, run, w);
    assert k in w.unfinalized ==> Deferred(w, k);
  }

  lemma FinishSuccessors(w: World, i: nat, outcome: Outcome, k: nat)
    requires Enabled(w, FinishRuns(i, outcome)) && k < |w.sittings|
    ensures var t := FinishStep(w, i, outcome);
            |t.sittings| == |w.sittings| && t.sittings[k].successor == w.sittings[k].successor
  {}

  lemma TeardownSuccessors(w: World, e: Event, k: nat)
    requires LinksForward(w.sittings) && Enabled(w, e) && (e.Finalize? || e.Retry?) && k < |w.sittings|
    ensures |Step(w, e).sittings| == |w.sittings| && Step(w, e).sittings[k].successor == w.sittings[k].successor
  {}

  lemma StepSuccessors(w: World, e: Event, k: nat)
    requires LinksForward(w.sittings) && Enabled(w, e) && !e.Begin? && k < |w.sittings|
    ensures |Step(w, e).sittings| == |w.sittings| && Step(w, e).sittings[k].successor == w.sittings[k].successor
  {
    match e
    case FinishRuns(i, outcome) => FinishSuccessors(w, i, outcome, k);
    case Finalize(_, _) => TeardownSuccessors(w, e, k);
    case Retry(_, _) => TeardownSuccessors(w, e, k);
    case _ =>
  }

  lemma {:induction false} RunSuccessors(w: World, run: seq<Event>, end: World, k: nat)
    requires IsRun(w, run, end) && k < |w.sittings| && forall e :: e in run ==> !e.Begin?
    ensures |end.sittings| == |w.sittings| && end.sittings[k].successor == w.sittings[k].successor
    decreases |run|
  {
    if |run| > 0 {
      assert run[0] in run && forall e :: e in run[1..] ==> e in run;
      StepSuccessors(w, run[0], k);
      RunSuccessors(Step(w, run[0]), run[1..], end, k);
    }
  }

  lemma {:induction false} RunsJoin(w: World, a: seq<Event>, mid: World, b: seq<Event>, end: World)
    requires IsRun(w, a, mid) && IsRun(mid, b, end)
    ensures IsRun(w, a + b, end)
    decreases |a|
  {
    if |a| == 0 {
      assert a + b == b;
    } else {
      assert (a + b)[0] == a[0] && (a + b)[1..] == a[1..] + b;
      RunsJoin(Step(w, a[0]), a[1..], mid, b, end);
    }
  }

  /**
   * Over every run: while a sitting is recording, no sitting that was unfinished when it began comes
   * to call finish(). With its writes stored, it is handed off to the newcomer.
   */
  lemma NoFinishUnderNewcomer(before: seq<Event>, w: World, after: seq<Event>, v: World, k: nat, e: Event)
    requires IsRun(EMPTY, before, w) && Enabled(w, Begin) && Unfinished(w, k)
    requires IsRun(BeginStep(w), after, v) && (forall f :: f in after ==> !f.Begin?)
    requires Enabled(v, e) && (e.Finalize? || e.Retry?) && e.i == k
    requires |w.sittings| < |v.sittings| && IsRecording(v.sittings[|w.sittings|])
    ensures LinksForward(v.sittings) && k < |Step(v, e).sittings|
    ensures Step(v, e).sittings[k].phase.Torn?
    ensures e.writesStored && (v.sittings[k].rowOpened || !v.sittings[k].startFailed) ==>
              Step(v, e).sittings[k].handedOff
  {
    var n, t := |w.sittings|, BeginStep(w);
    BeginLinks(before, w, k);
    RunSuccessors(t, after, v, k);
    var begun, u := Then(before, w, Begin);
    RunsJoin(EMPTY, begun, u, after, v);
    var run := begun + after;
    assert IsPath(v.sittings, v.sittings[k].successor, [n]);
    assert LaterRecords(v.sittings, k);
    if e.Finalize? { FinalizeDecides(run, v, k, e.writesStored); } else { RetryDecides(run, v, k, e.writesStored); }
  }

  // ---- The row -------------------------------------------------------------

  /**
   * A create() or reopen() answered, after any run: the first sitting makes the row, a later one only
   * reopens what is there, live and under a token newer than any before.
   */
  lemma CreateDecides(run: seq<Event>, w: World, i: nat)
    requires IsRun(EMPTY, run, w) && Enabled(w, CreateRuns(i, Ok))
    ensures LinksForward(w.sittings) && i < |w.sittings|
    ensures var t := Step(w, CreateRuns(i, Ok));
      && i < |t.sittings|
      && (if i == 0 || w.row.Some?
          then t.row == Some(Row(true, w.nextToken)) && t.sittings[i].create == Opened(w.nextToken)
          else t.row.None? && t.sittings[i].create.Gone?)
      && (w.row.Some? ==> w.row.value.openedAt < w.nextToken)
      && (forall k :: 0 <= k < |w.sittings| && w.sittings[k].create.Opened? ==>
           w.sittings[k].create.token < w.nextToken)
  {
    RunsKeep(EMPTY, run, w);
    forall k | 0 <= k < |w.sittings| && w.sittings[k].create.Opened?
      ensures w.sittings[k].create.token < w.nextToken
    {
      assert SittingOk(w, k);
    }
  }

  /** The first sitting's create() is behind: it has been answered, or another sitting has begun. */
  predicate PastCreate(w: World) {
    |w.sittings| > 1
    || (|w.sittings| == 1 && !w.sittings[0].create.NotRun? && !w.sittings[0].create.Running?)
  }

  lemma StaysDeleted(w: World, e: Event)
    requires Inv(w) && Enabled(w, e) && w.row.None? && PastCreate(w)
    ensures Step(w, e).row.None? && PastCreate(Step(w, e))
  {
    assert SittingOk(w, 0);
    match e
    case CreateRuns(i, outcome) =>
    case FinishRuns(i, outcome) => FinishSuccessors(w, i, outcome, 0); FinishCreate(w, i, outcome);
    case _ =>
  }

  lemma FinishCreate(w: World, i: nat, outcome: Outcome)
    requires Enabled(w, FinishRuns(i, outcome)) && w.row.None?
    ensures var t := FinishStep(w, i, outcome);
      t.row.None? && |t.sittings| == |w.sittings| && t.sittings[0].create == w.sittings[0].create
  {}

  lemma {:induction false} RunStaysDeleted(w: World, run: seq<Event>, end: World)
    requires Inv(w) && IsRun(w, run, end) && w.row.None? && PastCreate(w)
    ensures end.row.None?
    decreases |run|
  {
    if |run| > 0 {
      StepKeeps(w, run[0]);
      StaysDeleted(w, run[0]);
      RunStaysDeleted(Step(w, run[0]), run[1..], end);
    }
  }

  /** A recording deleted stays deleted, whatever its sittings still do: a start only reopens it. */
  lemma DeletedForGood(before: seq<Event>, w: World, after: seq<Event>, end: World)
    requires IsRun(EMPTY, before, w) && w.row.None? && PastCreate(w) && IsRun(w, after, end)
    ensures end.row.None?
  {
    RunsKeep(EMPTY, before, w);
    RunStaysDeleted(w, after, end);
  }
}
