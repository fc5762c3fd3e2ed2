/** What holds of the cue scheduler over every interleaving of finals, timers, calls, runs and close. */
module CueInvariants {
  import opened Prelude
  import opened CueGate

  // ---- Fates ---------------------------------------------------------------

  lemma RefateClears(turns: seq<Turn>, held: Fate, missed: Fate)
    requires held != Held || missed != Missed
    ensures held != Held && missed != Held ==> !AnyFate(Refate(turns, held, missed), Held)
    ensures held != Missed && missed != Missed ==> !AnyFate(Refate(turns, held, missed), Missed)
    ensures held == Held && missed != Held ==> (AnyFate(Refate(turns, held, missed), Held) <==> AnyFate(turns, Held))
  {
    var r := Refate(turns, held, missed);
    if held == Held && AnyFate(turns, Held) {
      var k :| 0 <= k < |turns| && turns[k].fate == Held;
      assert r[k].fate == Held;
    }
  }

  /** A window is made of texts alone. */
  lemma {:induction false} WindowAlike(a: seq<Turn>, b: seq<Turn>)
    requires |a| == |b| && forall k :: 0 <= k < |a| ==> a[k].text == b[k].text
    ensures Window(a) == Window(b)
  {
    if |a| > 0 { WindowAlike(a[..|a| - 1], b[..|b| - 1]); }
  }

  lemma RefateWindow(turns: seq<Turn>, held: Fate, missed: Fate)
    ensures Window(Refate(turns, held, missed)) == Window(turns)
  {
    WindowAlike(Refate(turns, held, missed), turns);
  }

  lemma RefateRecorded(s: State, held: Fate, missed: Fate)
    requires Recorded(s)
    requires !held.Covered? && !missed.Covered?
    ensures Recorded(s.(turns := Refate(s.turns, held, missed)))
  {
    var t := s.(turns := Refate(s.turns, held, missed));
    RefateWindow(s.turns, held, missed);
    forall k | 0 <= k < |t.turns| ensures FateOk(t.turns, t.seen, k) { assert FateOk(s.turns, s.seen, k); }
    forall k | 0 <= k < |t.attempts| ensures AttemptOk(t.turns, t.attempts, t.seen, k) {
      assert AttemptOk(s.turns, s.attempts, s.seen, k);
      RefateWindow(s.turns[..s.seen[k]], held, missed);
      assert t.turns[..s.seen[k]] == Refate(s.turns[..s.seen[k]], held, missed);
    }
  }

  lemma AnyFateAppend(turns: seq<Turn>, turn: Turn, fate: Fate)
    ensures AnyFate(turns + [turn], fate) <==> AnyFate(turns, fate) || turn.fate == fate
  {
    var r := turns + [turn];
    if AnyFate(turns, fate) {
      var k :| 0 <= k < |turns| && turns[k].fate == fate;
      assert r[k].fate == fate;
    }
    if turn.fate == fate { assert r[|turns|].fate == fate; }
  }

  lemma AddTurnFate(s: State, text: string, endMs: int, fate: Fate, k: nat)
    requires Recorded(s) && !fate.Covered? && k <= |s.turns|
    ensures FateOk(AddTurn(s, text, endMs, fate).turns, s.seen, k)
  {
    if k < |s.turns| {
      assert FateOk(s.turns, s.seen, k);
    } else if s.seen != [] {
      assert AttemptOk(s.turns, s.attempts, s.seen, |s.attempts| - 1);
    }
  }

  lemma AddTurnAttempt(turns: seq<Turn>, turn: Turn, attempts: seq<Attempt>, seen: seq<nat>, k: nat)
    requires k < |attempts| == |seen| && AttemptOk(turns, attempts, seen, k)
    ensures AttemptOk(turns + [turn], attempts, seen, k)
  {
    assert (turns + [turn])[..seen[k]] == turns[..seen[k]];
  }

  lemma {:induction false} AddTurnRecorded(s: State, text: string, endMs: int, fate: Fate)
    requires Recorded(s) && !fate.Covered?
    ensures Recorded(AddTurn(s, text, endMs, fate))
  {
    var t := AddTurn(s, text, endMs, fate);
    assert t.turns[..|t.turns| - 1] == s.turns;
    forall k | 0 <= k < |t.turns| ensures FateOk(t.turns, t.seen, k) { AddTurnFate(s, text, endMs, fate, k); }
    forall k | 0 <= k < |t.attempts| ensures AttemptOk(t.turns, t.attempts, t.seen, k) {
      AddTurnAttempt(s.turns, Turn(text, endMs, fate), s.attempts, s.seen, k);
    }
  }

  /** An attempt sees every turn so far: nothing waits any more, and its window is the current one. */
  lemma StartRecorded(s: State, now: int, stamp: int)
    requires s.call.None? && Recorded(s)
    ensures Recorded(Start(s, now, stamp))
    ensures !AnyFate(Start(s, now, stamp).turns, Held) && !AnyFate(Start(s, now, stamp).turns, Missed)
  {
    var n := |s.attempts|;
    var t := Start(s, now, stamp);
    RefateWindow(s.turns, Covered(n), Covered(n));
    RefateClears(s.turns, Covered(n), Covered(n));
    if n > 0 { assert AttemptOk(s.turns, s.attempts, s.seen, n - 1); }
    forall k | 0 <= k < |t.turns| ensures FateOk(t.turns, t.seen, k) { assert FateOk(s.turns, s.seen, k); }
    forall k | 0 <= k < |t.attempts| ensures AttemptOk(t.turns, t.attempts, t.seen, k) {
      if k < n {
        assert AttemptOk(s.turns, s.attempts, s.seen, k);
        RefateWindow(s.turns[..s.seen[k]], Covered(n), Covered(n));
        assert t.turns[..s.seen[k]] == Refate(s.turns[..s.seen[k]], Covered(n), Covered(n));
      } else {
        assert t.turns[..|t.turns|] == t.turns;
      }
    }
  }

  // ---- Timing --------------------------------------------------------------

  lemma SpacedAppend(times: seq<int>, gap: int, t: int)
    requires Spaced(times, gap) && (times == [] || t - times[|times| - 1] >= gap)
    ensures Spaced(times + [t], gap)
  {
    var r := times + [t];
    forall k | 0 < k < |r| ensures r[k] - r[k - 1] >= gap {
      if k < |times| { assert r[k] == times[k] && r[k - 1] == times[k - 1]; }
    }
  }

  lemma StartTimed(s: State, now: int, stamp: int, was: int)
    requires s.call.None? && was <= now && Timed(s.(missed := None), was)
    requires s.missed.None? && !InFloor(s, now) && !TooSoonAfterCue(s, now)
    ensures Timed(Start(s, now, stamp), now)
  {
    var t := Start(s, now, stamp);
    assert s.(missed := None) == s;
    assert StartTimes(t.attempts) == StartTimes(s.attempts) + [now];
    SpacedAppend(StartTimes(s.attempts), ATTEMPT_INTERVAL_MS, now);
  }

  lemma StartKeeps(s: State, now: int, stamp: int, was: int)
    requires s.call.None? && s.missed.None? && was <= now && Timed(s, was) && Recorded(s)
    requires !InFloor(s, now) && !TooSoonAfterCue(s, now)
    ensures Inv(Start(s, now, stamp), now)
  {
    StartTimed(s, now, stamp, was);
    StartRecorded(s, now, stamp);
  }

  // ---- Each event ----------------------------------------------------------

  lemma LaterStillTimed(s: State, was: int, now: int)
    requires Inv(s, was) && was <= now
    ensures Inv(s, now)
  {}

  lemma AddTurnKeeps(s: State, now: int, text: string, endMs: int, fate: Fate)
    requires Inv(s, now) && !fate.Covered? && !fate.Held? && !fate.Missed?
    ensures Inv(AddTurn(s, text, endMs, fate), now)
  {
    AddTurnRecorded(s, text, endMs, fate);
    AnyFateAppend(s.turns, Turn(text, endMs, fate), Held);
    AnyFateAppend(s.turns, Turn(text, endMs, fate), Missed);
  }

  lemma ConsiderKeeps(s: State, now: int, text: string, endMs: int)
    requires Inv(s, now)
    ensures Inv(Consider(s, now, text, endMs), now)
  {
    if s.closed {
    } else if s.translation || s.music {
      AddTurnKeeps(s, now, text, endMs, s.past.Gated(now));
    } else if InFloor(s, now) {
      AddTurnRecorded(s, text, endMs, Held);
      AnyFateAppend(s.turns, Turn(text, endMs, Held), Held);
      AnyFateAppend(s.turns, Turn(text, endMs, Held), Missed);
    } else if s.call.Some? {
      AddTurnRecorded(s, text, endMs, Missed);
      AnyFateAppend(s.turns, Turn(text, endMs, Missed), Held);
      AnyFateAppend(s.turns, Turn(text, endMs, Missed), Missed);
    } else if TooSoonAfterCue(s, now) {
      AddTurnKeeps(s, now, text, endMs, s.past.Soon(now));
    } else {
      AddTurnRecorded(s, text, endMs, Held);
      StartKeeps(AddTurn(s, text, endMs, Held), now, endMs, now);
    }
  }

  /** The state a catch-up finds: the call just ended, the missed turn still marked. */
  ghost predicate CallOver(s: State, now: int) {
    && s.call.None? && Timed(s.(missed := None), now) && Waits(s) && Recorded(s)
    && (s.missed.Some? ==> !InFloor(s, now))
  }

  lemma CatchUpKeeps(s: State, now: int)
    requires CallOver(s, now)
    ensures Inv(CatchUp(s, now), now)
  {
    var t := s.(missed := None);
    if s.missed.None? {
      assert t == s;
    } else if s.closed || s.translation || s.music || TooSoonAfterCue(s, now) {
      var fate :=
        if s.closed then Ended(now) else if s.translation || s.music then s.past.Gated(now) else s.past.Soon(now);
      RefateRecorded(s, Held, fate);
      RefateClears(s.turns, Held, fate);
      assert CatchUp(s, now) == t.(turns := Refate(s.turns, Held, fate));
    } else {
      assert Recorded(t);
      StartKeeps(t, now, s.missed.value, now);
    }
  }

  lemma FloorLapsedKeeps(s: State, now: int)
    requires Inv(s, now) && s.timer.Some? && now >= s.timer.value
    ensures Inv(FloorLapsed(s, now), now)
  {
    var t := s.(timer := None, held := None);
    var u := t.(missed := s.held, turns := Refate(s.turns, Missed, Missed));
    RefateRecorded(s, Missed, Missed);
    RefateClears(s.turns, Missed, Missed);
    assert AnyFate(u.turns, Missed) by {
      var k :| 0 <= k < |s.turns| && s.turns[k].fate == Held;
      assert u.turns[k].fate == Missed;
    }
    assert Recorded(u);
    if s.call.None? { CatchUpKeeps(u, now); }
  }

  lemma CueShownKeeps(s: State, now: int)
    requires Inv(s, now) && s.call.Some? && !s.call.value.shown
    ensures Inv(CueShown(s, now), now)
  {
    SpacedAppend(s.past.shows, MIN_INTERVAL_MS, now);
  }

  lemma CallEndedKeeps(s: State, now: int)
    requires Inv(s, now) && s.call.Some?
    ensures Inv(CallEnded(s, now), now)
  {
    CatchUpKeeps(s.(call := None), now);
  }

  lemma StepKeeps(s: State, e: Event, now: int)
    requires Inv(s, now) && Enabled(s, e, now)
    ensures Inv(Step(s, e, now), now)
  {
    match e
    case Final(text, endMs) => ConsiderKeeps(s, now, text, endMs);
    case FloorTimer => FloorLapsedKeeps(s, now);
    case Show => CueShownKeeps(s, now);
    case End => CallEndedKeeps(s, now);
    case Runs(_, _) => SameGate(s, Step(s, e, now), now);
    case Close => SameGate(s, Step(s, e, now), now);
  }

  lemma SameGate(s: State, t: State, now: int)
    requires Inv(s, now)
    requires t == s.(translation := t.translation, music := t.music, closed := t.closed, past := t.past)
    requires t.past.shows == s.past.shows
    ensures Inv(t, now)
  {}

  // ---- Every run -----------------------------------------------------------

  /** When a run that starts at `now` ends. */
  function EndsAt(now: int, run: seq<(Event, int)>): int {
    if |run| == 0 then now else run[|run| - 1].1
  }

  /** The invariant holds after every interleaving. */
  lemma {:induction false} RunsKeep(s: State, now: int, run: seq<(Event, int)>, end: State)
    requires Inv(s, now) && IsRun(s, now, run, end)
    ensures Inv(end, EndsAt(now, run))
    decreases |run|
  {
    if |run| > 0 {
      LaterStillTimed(s, now, run[0].1);
      StepKeeps(s, run[0].0, run[0].1);
      RunsKeep(Step(s, run[0].0, run[0].1), run[0].1, run[1..], end);
    }
  }

  lemma InitInv(now: int)
    ensures Inv(INIT, now)
  {}

  /** The times of one run never break the two minimum gaps. */
  lemma SpacingOfEveryRun(run: seq<(Event, int)>, end: State, i: nat, j: nat)
    requires IsRun(INIT, 0, run, end) && i < j
    ensures j < |end.attempts| ==> end.attempts[j].at - end.attempts[i].at >= ATTEMPT_INTERVAL_MS
    ensures j < |end.past.shows| ==> end.past.shows[j] - end.past.shows[i] >= MIN_INTERVAL_MS
  {
    InitInv(0);
    RunsKeep(INIT, 0, run, end);
    if j < |end.attempts| { SpacedPair(StartTimes(end.attempts), ATTEMPT_INTERVAL_MS, i, j); }
    if j < |end.past.shows| { SpacedPair(end.past.shows, MIN_INTERVAL_MS, i, j); }
  }

  lemma {:induction false} SpacedPair(times: seq<int>, gap: int, i: nat, j: nat)
    requires Spaced(times, gap) && gap >= 0 && i < j < |times|
    ensures times[j] - times[i] >= gap
    decreases j
  {
    if j > i + 1 {
      SpacedPair(times, gap, i, j - 1);
      assert times[j] - times[j - 1] >= gap;
    }
  }

  /**
   * What waits in every reachable state: a held turn exactly behind an armed floor timer, which is
   * due one floor after the last attempt, and a missed one only behind a call in flight past the floor.
   */
  lemma PendingOfEveryRun(run: seq<(Event, int)>, end: State)
    requires IsRun(INIT, 0, run, end)
    ensures (end.held.Some? <==> end.timer.Some?) && (end.held.Some? <==> AnyFate(end.turns, Held))
    ensures end.timer.Some? ==> end.lastAttempt.Some? && end.timer.value == end.lastAttempt.value + ATTEMPT_INTERVAL_MS
    ensures end.missed.Some? <==> AnyFate(end.turns, Missed)
    ensures end.missed.Some? ==> end.call.Some? && EndsAt(0, run) - end.call.value.startedAt >= ATTEMPT_INTERVAL_MS
  {
    InitInv(0);
    RunsKeep(INIT, 0, run, end);
  }

  /**
   * No turn is stranded: once no call is in flight and no timer is armed, every turn was seen by
   * the first attempt after it, or was passed over for a stated reason.
   */
  lemma NoTurnStranded(run: seq<(Event, int)>, end: State, k: nat)
    requires IsRun(INIT, 0, run, end) && k < |end.turns|
    ensures end.turns[k].fate.Held? ==> end.timer.Some?
    ensures end.turns[k].fate.Missed? ==> end.call.Some?
    ensures end.turns[k].fate.Covered? ==>
              var n := end.turns[k].fate.k;
              && n < |end.attempts| == |end.seen| && k < end.seen[n] <= |end.turns|
              && (n > 0 ==> end.seen[n - 1] <= k)
              && end.attempts[n].window == Window(end.turns[..end.seen[n]])
  {
    InitInv(0);
    RunsKeep(INIT, 0, run, end);
    assert FateOk(end.turns, end.seen, k);
    if end.turns[k].fate.Covered? { assert AttemptOk(end.turns, end.attempts, end.seen, end.turns[k].fate.k); }
  }
}
