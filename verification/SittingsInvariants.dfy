/** What holds of a recording's row over every interleaving of its sittings. */
module SittingsInvariants {
  import opened Prelude
  import opened Sittings

  // ---- Each step keeps the invariant ---------------------------------------

  lemma LinkKeeps(sittings: seq<Sitting>, from: seq<nat>, s: Sitting)
    requires LinksForward(sittings) && s.successor.None?
    ensures LinksForward(Link(sittings, from, |sittings|) + [s])
  {}

  lemma BeginKeeps(w: World)
    requires Inv(w) && Enabled(w, Begin)
    ensures Inv(BeginStep(w))
  {
    var t := BeginStep(w);
    var from := w.unfinalized + (if w.closing.Some? then [w.closing.value] else []);
    LinkKeeps(w.sittings, from, t.sittings[|w.sittings|]);
    forall i | 0 <= i < |t.sittings| ensures SittingOk(t, i) { BeginSittingOk(w, i); }
    forall i | i in t.unfinalized ensures Deferred(t, i) { assert Deferred(w, i); }
    if t.row.Some? && t.row.value.live {
      var k :| 0 <= k < |w.sittings| && Answers(w, k);
      assert Answers(t, k);
    }
  }

  lemma BeginSittingOk(w: World, i: nat)
    requires Inv(w) && Enabled(w, Begin) && i <= |w.sittings|
    ensures SittingOk(BeginStep(w), i)
  {
    if i < |w.sittings| { assert SittingOk(w, i); }
  }

  /** Replacing one sitting's record keeps the invariant when its row-related part still fits. */
  lemma PutKeeps(w: World, i: nat, s: Sitting, t: World)
    requires Inv(w) && i < |w.sittings|
    requires t == Put(w, i, s).(unfinalized := t.unfinalized, closing := t.closing)
    requires s.create == w.sittings[i].create && s.rowOpened == w.sittings[i].rowOpened
    requires s.successor == w.sittings[i].successor
    requires forall k :: k in t.unfinalized <==> (k in w.unfinalized && k != i) || (k == i && i in t.unfinalized)
    requires SittingOk(t, i) && (i in t.unfinalized ==> Deferred(t, i))
    requires t.closing.Some? ==> t.closing.value < |w.sittings|
    requires w.row.Some? && w.row.value.live && Answers(w, i) ==> exists k :: 0 <= k < |w.sittings| && Answers(t, k)
    ensures Inv(t)
  {
    forall k | 0 <= k < |t.sittings| ensures SittingOk(t, k) { assert SittingOk(w, k); }
    forall k | k in t.unfinalized ensures Deferred(t, k) { if k != i { assert Deferred(w, k); } }
    if t.row.Some? && t.row.value.live {
      var k :| 0 <= k < |w.sittings| && Answers(w, k);
      if k != i { assert Answers(t, k); }
    }
  }

  lemma PhaseKeeps(w: World, i: nat, s: Sitting)
    requires Inv(w) && i < |w.sittings|
    requires s == w.sittings[i].(phase := s.phase, startFailed := s.startFailed)
    requires !w.sittings[i].phase.Torn? && !w.sittings[i].phase.Retrying? && !s.phase.Torn? && !s.phase.Retrying?
    requires SittingOk(Put(w, i, s), i)
    ensures Inv(Put(w, i, s))
  {
    var t := Put(w, i, s);
    assert i in w.unfinalized ==> Deferred(w, i);
    if w.row.Some? && Answers(w, i) { assert Answers(t, i); }
    PutKeeps(w, i, s, t);
  }

  lemma OpenRowKeeps(w: World, i: nat)
    requires Inv(w) && Enabled(w, OpenRow(i))
    ensures Inv(Step(w, OpenRow(i)))
  {
    var t := Step(w, OpenRow(i));
    assert SittingOk(w, i);
    forall k | 0 <= k < |t.sittings| ensures SittingOk(t, k) { assert SittingOk(w, k); }
    forall k | k in t.unfinalized ensures Deferred(t, k) { assert Deferred(w, k); }
    if t.row.Some? && t.row.value.live {
      var k :| 0 <= k < |w.sittings| && Answers(w, k);
      assert Answers(t, k);
    }
  }

  lemma CreateSittingOk(w: World, i: nat, outcome: Outcome, k: nat)
    requires Inv(w) && Enabled(w, CreateRuns(i, outcome)) && k < |w.sittings|
    ensures SittingOk(CreateStep(w, i, outcome), k)
  {
    assert SittingOk(w, i) && SittingOk(w, k);
  }

  lemma CreateAscends(w: World, i: nat, outcome: Outcome)
    requires Inv(w) && Enabled(w, CreateRuns(i, outcome))
    ensures TokensAscend(CreateStep(w, i, outcome).sittings)
  {
    var t := CreateStep(w, i, outcome);
    forall a, b | 0 <= a < b < |t.sittings| && t.sittings[a].create.Opened? && t.sittings[b].create.Opened?
      ensures t.sittings[a].create.token < t.sittings[b].create.token
    {
      assert SittingOk(w, a) && SittingOk(w, b);
    }
  }

  /** A start reopening the row answers for it from then on, with the newest token or with none. */
  lemma CreateAnswered(w: World, i: nat, outcome: Outcome)
    requires Inv(w) && Enabled(w, CreateRuns(i, outcome))
    ensures LiveAnswered(CreateStep(w, i, outcome))
  {
    var t := CreateStep(w, i, outcome);
    assert SittingOk(w, i);
    if t.row.Some? && t.row.value.live {
      if t.row == w.row {
        var k :| 0 <= k < |w.sittings| && Answers(w, k);
        assert Answers(t, k);
      } else {
        assert !(i in w.unfinalized && !Deferred(w, i));
        assert Answers(t, i);
      }
    }
  }

  lemma CreateKeeps(w: World, i: nat, outcome: Outcome)
    requires Inv(w) && Enabled(w, CreateRuns(i, outcome))
    ensures Inv(CreateStep(w, i, outcome))
  {
    var t := CreateStep(w, i, outcome);
    forall k | 0 <= k < |t.sittings| ensures SittingOk(t, k) { CreateSittingOk(w, i, outcome, k); }
    forall k | k in t.unfinalized ensures Deferred(t, k) { assert Deferred(w, k); }
    CreateAscends(w, i, outcome);
    CreateAnswered(w, i, outcome);
  }

  /** Some sitting still recording into the row is found exactly along the chain of successors. */
  lemma {:induction false} ResumedLiveFinds(sittings: seq<Sitting>, later: Option<nat>) returns (j: nat)
    requires LinksForward(sittings) && ResumedLive(sittings, later)
    ensures j < |sittings| && sittings[j].rowOpened && !sittings[j].Closed() && later.Some? && later.value <= j
    decreases if later.Some? && later.value < |sittings| then |sittings| - later.value else 0
  {
    if sittings[later.value].rowOpened && !sittings[later.value].Closed() {
      j := later.value;
    } else {
      j := ResumedLiveFinds(sittings, sittings[later.value].successor);
    }
  }

  /** A sitting still recording into the row answers for it. */
  lemma RecordingAnswers(w: World, j: nat)
    requires Inv(w) && j < |w.sittings| && w.sittings[j].rowOpened && !w.sittings[j].Closed() && w.row.Some?
    ensures Answers(w, j)
  {
    assert SittingOk(w, j);
  }

  lemma FinalizeKeeps(w: World, i: nat, writesStored: bool)
    requires Inv(w) && Enabled(w, Finalize(i, writesStored))
    ensures Inv(FinalizeStep(w, i, writesStored))
  {
    var s, t := w.sittings[i], FinalizeStep(w, i, writesStored);
    assert SittingOk(w, i);
    assert i in w.unfinalized ==> Deferred(w, i);
    if s.startFailed && !s.rowOpened {
      PutKeeps(w, i, t.sittings[i], t);
    } else if writesStored && ResumedLive(w.sittings, s.successor) {
      var j := ResumedLiveFinds(w.sittings, s.successor);
      if w.row.Some? {
        RecordingAnswers(w, j);
        assert Answers(t, j);
      }
      PutKeeps(w, i, t.sittings[i], t);
    } else {
      assert i in t.unfinalized ==> Deferred(t, i);
      if w.row.Some? && Answers(w, i) { assert Answers(t, i); }
      PutKeeps(w, i, t.sittings[i], t);
    }
  }

  lemma RetryKeeps(w: World, i: nat, writesStored: bool)
    requires Inv(w) && Enabled(w, Retry(i, writesStored))
    ensures Inv(RetryStep(w, i, writesStored))
  {
    var s, t := w.sittings[i], RetryStep(w, i, writesStored);
    assert SittingOk(w, i) && Deferred(w, i);
    if writesStored {
      if ResumedLive(w.sittings, s.successor) {
        var j := ResumedLiveFinds(w.sittings, s.successor);
        if w.row.Some? {
          RecordingAnswers(w, j);
          assert Answers(t, j);
        }
      } else if w.row.Some? && Answers(w, i) {
        assert Answers(t, i);
      }
      PutKeeps(w, i, t.sittings[i], t);
    }
  }

  lemma ReadyKeeps(w: World, token: Option<nat>)
    requires Inv(w)
    ensures Inv(w.(row := FinishRow(w.row, token)))
  {
    var t := w.(row := FinishRow(w.row, token));
    forall k | 0 <= k < |t.sittings| ensures SittingOk(t, k) { assert SittingOk(w, k); }
    forall k | k in t.unfinalized ensures Deferred(t, k) { assert Deferred(w, k); }
    if t.row.Some? && t.row.value.live {
      var k :| 0 <= k < |w.sittings| && Answers(w, k);
      assert Answers(t, k);
    }
  }

  lemma FinishCallKeeps(w: World, i: nat, applied: bool)
    requires Inv(w) && i < |w.sittings| && (w.sittings[i].phase.Finishing? || w.sittings[i].phase.Retrying?)
    ensures Inv(FinishCall(w, i, applied))
    ensures applied && FinishCall(w, i, applied).row.Some? && FinishCall(w, i, applied).row.value.live ==>
      !Matches(FinishCall(w, i, applied).row, w.sittings[i].phase.token)
  {
    var token := w.sittings[i].phase.token;
    if applied && Matches(w.row, token) {
      var u, s := w.(row := FinishRow(w.row, token)), w.sittings[i].(readied := Some(w.row.value.openedAt));
      ReadyKeeps(w, token);
      assert SittingOk(u, i);
      assert i in u.unfinalized ==> Deferred(u, i);
      PutKeeps(u, i, s, Put(u, i, s));
    }
  }

  lemma FinishAnsweredOk(w: World, i: nat, outcome: Outcome)
    requires Inv(w) && Enabled(w, FinishRuns(i, outcome))
    ensures SittingOk(FinishAnswered(w, i, outcome), i)
    ensures i in FinishAnswered(w, i, outcome).unfinalized ==> Deferred(FinishAnswered(w, i, outcome), i)
  {
    assert SittingOk(w, i);
  }

  /** A finish() that did its work answers for no live row; one that did not is deferred or has failed. */
  lemma FinishAnsweredKeeps(w: World, i: nat, outcome: Outcome)
    requires Inv(w) && Enabled(w, FinishRuns(i, outcome))
    requires (outcome.Ok? || outcome.applied) && w.row.Some? && w.row.value.live ==>
      !Matches(w.row, w.sittings[i].phase.token)
    ensures Inv(FinishAnswered(w, i, outcome))
  {
    var t := FinishAnswered(w, i, outcome);
    assert SittingOk(w, i);
    FinishAnsweredOk(w, i, outcome);
    if w.row.Some? && w.row.value.live && Answers(w, i) {
      assert !outcome.Ok? && !outcome.applied;
      assert Answers(t, i);
    }
    PutKeeps(w, i, t.sittings[i], t);
  }

  lemma FinishKeeps(w: World, i: nat, outcome: Outcome)
    requires Inv(w) && Enabled(w, FinishRuns(i, outcome))
    ensures Inv(FinishStep(w, i, outcome))
  {
    FinishCallKeeps(w, i, outcome.Ok? || outcome.applied);
    FinishAnsweredKeeps(FinishCall(w, i, outcome.Ok? || outcome.applied), i, outcome);
  }

  lemma StepKeeps(w: World, e: Event)
    requires Inv(w) && Enabled(w, e)
    ensures Inv(Step(w, e))
  {
    match e
    case Begin => BeginKeeps(w);
    case OpenRow(i) => OpenRowKeeps(w, i);
    case CreateRuns(i, outcome) => CreateKeeps(w, i, outcome);
    case StartDone(i) => assert SittingOk(w, i); PhaseKeeps(w, i, w.sittings[i].(phase := Live));
    case StartFails(i) =>
      assert SittingOk(w, i);
      PhaseKeeps(w, i, w.sittings[i].(phase := Closing, startFailed := true));
    case Close(i) => assert SittingOk(w, i); CloseKeeps(w, i);
    case Finalize(i, writesStored) => FinalizeKeeps(w, i, writesStored);
    case FinishRuns(i, outcome) => FinishKeeps(w, i, outcome);
    case Retry(i, writesStored) => RetryKeeps(w, i, writesStored);
    case TeardownPopped => StoreKeeps(w, w.(closing := None));
    case Deleted => StoreKeeps(w, w.(row := None));
  }

  lemma CloseKeeps(w: World, i: nat)
    requires Inv(w) && Enabled(w, Close(i))
    ensures Inv(Step(w, Close(i)))
  {
    assert SittingOk(w, i);
    PhaseKeeps(w, i, w.sittings[i].(phase := Closing));
    StoreKeeps(Put(w, i, w.sittings[i].(phase := Closing)), Step(w, Close(i)));
  }

  lemma StoreKeeps(w: World, t: World)
    requires Inv(w) && t == w.(row := t.row, closing := t.closing)
    requires t.row == w.row || t.row.None?
    requires t.closing.Some? ==> t.closing.value < |w.sittings|
    ensures Inv(t)
  {
    forall k | 0 <= k < |t.sittings| ensures SittingOk(t, k) { assert SittingOk(w, k); }
    forall k | k in t.unfinalized ensures Deferred(t, k) { assert Deferred(w, k); }
    if t.row.Some? && t.row.value.live {
      var k :| 0 <= k < |w.sittings| && Answers(w, k);
      assert Answers(t, k);
    }
  }

  // ---- Every run -----------------------------------------------------------

  lemma {:induction false} RunsKeep(w: World, run: seq<Event>, end: World)
    requires Inv(w) && IsRun(w, run, end)
    ensures Inv(end)
    decreases |run|
  {
    if |run| > 0 {
      StepKeeps(w, run[0]);
      RunsKeep(Step(w, run[0]), run[1..], end);
    }
  }

  /** A sitting's finish() turns the row from live to ready. */
  ghost predicate Readies(w: World, i: nat, outcome: Outcome)
    requires Enabled(w, FinishRuns(i, outcome))
  {
    && w.row.Some? && w.row.value.live
    && FinishStep(w, i, outcome).row.Some? && !FinishStep(w, i, outcome).row.value.live
  }

  /** A sitting after i has reopened the row and is still recording into it. */
  ghost predicate LaterRecording(w: World, i: nat) {
    exists j :: i < j < |w.sittings| && w.sittings[j].create.Opened? && !w.sittings[j].Closed()
  }

  /**
   * After any run: a finish() with a token never readies the row once a later sitting has reopened
   * it, whether that sitting is still live or not.
   */
  lemma TokenNeverClosesLater(run: seq<Event>, w: World, i: nat, outcome: Outcome, j: nat)
    requires IsRun(EMPTY, run, w) && Enabled(w, FinishRuns(i, outcome)) && Readies(w, i, outcome)
    requires w.sittings[i].phase.token.Some?
    requires i < j < |w.sittings|
    ensures !w.sittings[j].create.Opened?
  {
    RunsKeep(EMPTY, run, w);
    assert SittingOk(w, i) && SittingOk(w, j);
  }

  /**
   * Exactly when a finish() readies the row under a later live sitting: only without a token (its
   * create() raised), and then whenever its call does its work.
   */
  lemma ClosesUnderLaterIff(run: seq<Event>, w: World, i: nat, outcome: Outcome)
    requires IsRun(EMPTY, run, w) && Enabled(w, FinishRuns(i, outcome))
    requires w.row.Some? && w.row.value.live && LaterRecording(w, i)
    ensures Readies(w, i, outcome) <==> w.sittings[i].phase.token.None? && (outcome.Ok? || outcome.applied)
  {
    var j :| i < j < |w.sittings| && w.sittings[j].create.Opened? && !w.sittings[j].Closed();
    if Readies(w, i, outcome) && w.sittings[i].phase.token.Some? {
      TokenNeverClosesLater(run, w, i, outcome, j);
    }
  }

  // ---- Where the claims stop -----------------------------------------------

  lemma {:induction false} RunThen(w: World, run: seq<Event>, mid: World, e: Event)
    requires IsRun(w, run, mid) && LinksForward(mid.sittings) && Enabled(mid, e)
    ensures IsRun(w, run + [e], Step(mid, e))
    decreases |run|
  {
    if |run| > 0 {
      RunThen(Step(w, run[0]), run[1..], mid, e);
      assert (run + [e])[1..] == run[1..] + [e];
    } else {
      assert (run + [e])[1..] == run;
    }
  }

  /** One more event after a run of the module's own. */
  lemma Then(run: seq<Event>, w: World, e: Event) returns (longer: seq<Event>, end: World)
    requires IsRun(EMPTY, run, w) && LinksForward(w.sittings) && Enabled(w, e)
    ensures IsRun(EMPTY, longer, end) && end == Step(w, e) && longer == run + [e]
  {
    RunThen(EMPTY, run, w, e);
    longer, end := run + [e], Step(w, e);
  }

  /** A first sitting that starts and closes cleanly, up to its finish() call. */
  lemma FirstSittingFinishing() returns (run: seq<Event>, w: World)
    ensures IsRun(EMPTY, run, w)
    ensures w == World(Some(Row(true, 0)), 1,
      [Sitting(Finishing(Some(0)), true, Opened(0), false, None, false, false, false, None)], Some(0), [])
  {
    run, w := [], EMPTY;
    run, w := Then(run, w, Begin);
    run, w := Then(run, w, OpenRow(0));
    run, w := Then(run, w, CreateRuns(0, Ok));
    run, w := Then(run, w, StartDone(0));
    run, w := Then(run, w, Close(0));
    run, w := Then(run, w, Finalize(0, true));
  }

  /** A first sitting whose create() raised after writing the row, deferred and being retried. */
  lemma TokenlessRetrying() returns (run: seq<Event>, w: World)
    ensures IsRun(EMPTY, run, w)
    ensures w == World(Some(Row(true, 0)), 1,
      [Sitting(Retrying(None), true, Raised, true, None, false, false, false, None)], None, [0])
  {
    run, w := [], EMPTY;
    run, w := Then(run, w, Begin);
    run, w := Then(run, w, OpenRow(0));
    var e := CreateRuns(0, Retryable(true));
    run, w := Then(run, w, e);
    run, w := Then(run, w, StartFails(0));
    run, w := Then(run, w, Finalize(0, false));
    run, w := Then(run, w, Retry(0, true));
  }

  /** The same sitting while a later one has reopened the row and is still starting. */
  lemma TokenlessUnderLater() returns (run: seq<Event>, w: World)
    ensures IsRun(EMPTY, run, w)
    ensures w == World(Some(Row(true, 1)), 2,
      [Sitting(Retrying(None), true, Raised, true, Some(1), false, false, false, None),
       NEWCOMER.(rowOpened := true, create := Opened(1))], None, [0])
  {
    run, w := TokenlessRetrying();
    run, w := Then(run, w, Begin);
    assert w.sittings == [Sitting(Retrying(None), true, Raised, true, Some(1), false, false, false, None), NEWCOMER];
    run, w := Then(run, w, OpenRow(1));
    run, w := Then(run, w, CreateRuns(1, Ok));
  }

  /**
   * A sitting whose create() raised after writing the row finishes without a token: deferred, it can
   * pass its check, and then ready the row under the sitting that reopened it meanwhile.
   */
  lemma TokenlessClosesLater()
    ensures exists run, w ::
      IsRun(EMPTY, run, w) && Enabled(w, FinishRuns(0, Ok)) && Readies(w, 0, Ok) && LaterRecording(w, 0)
  {
    var run, w := TokenlessUnderLater();
    assert w.sittings[1].create.Opened? && !w.sittings[1].Closed();
    assert LaterRecording(w, 0);
  }
}
