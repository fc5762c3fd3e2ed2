/** Exactly when an attempt starts, what it is stamped with, and what it is shown. */
module CueStarts {
  import opened Prelude
  import opened CueGate
  import opened CueInvariants
  import opened CueReasons

  // ---- When ----------------------------------------------------------------

  /** A translation or song run is live. */
  predicate RunLive(past: Past) { |past.changes| > 0 && past.changes[|past.changes| - 1].live }

  /**
   * Nothing stands in the way of an attempt: the session is open, no run is live, the last attempt is
   * a floor behind and the last cue a min interval.
   */
  predicate Clear(s: State, now: int) {
    && s.past.closedAt.None? && !RunLive(s.past)
    && (|s.attempts| > 0 ==> now - s.attempts[|s.attempts| - 1].at >= ATTEMPT_INTERVAL_MS)
    && (|s.past.shows| > 0 ==> now - s.past.shows[|s.past.shows| - 1] >= MIN_INTERVAL_MS)
  }

  /** A turn comes, the floor timer fires or a call ends, with a turn waiting and no call in flight. */
  ghost predicate Calls(s: State, e: Event) {
    match e
    case Final(_, _) => s.call.None?
    case FloorTimer => s.call.None? && AnyFate(s.turns, Held)
    case End => AnyFate(s.turns, Missed)
    case _ => false
  }

  /** The attempts after a step that started one now, or none. */
  ghost predicate Attempts(s: State, t: State, now: int, starts: bool) {
    if starts then
      && |t.attempts| == |s.attempts| + 1 && t.attempts[..|s.attempts|] == s.attempts
      && t.attempts[|s.attempts|].at == now && t.call == Some(Call(now, false))
    else t.attempts == s.attempts && (t.call.Some? ==> s.call.Some?)
  }

  lemma GatesSay(s: State, now: int)
    requires Inv(s, now) && PastOk(s, now)
    ensures Clear(s, now) <==>
      !s.closed && !s.translation && !s.music && !InFloor(s, now) && !TooSoonAfterCue(s, now)
  {
    var times := StartTimes(s.attempts);
    assert |s.attempts| > 0 ==> times[|times| - 1] == s.attempts[|s.attempts| - 1].at;
    assert s.lastAttempt.None? <==> |times| == 0;
  }

  /** Past the floor, a catch-up starts an attempt exactly on a waiting turn with nothing in the way. */
  lemma CatchUpStarts(s: State, now: int)
    requires s.call.None?
    ensures var t := CatchUp(s, now);
      Attempts(s, t, now,
        s.missed.Some? && !s.closed && !s.translation && !s.music && !TooSoonAfterCue(s, now))
  {}

  lemma ConsiderStarts(s: State, now: int, text: string, endMs: int)
    ensures Attempts(s, Consider(s, now, text, endMs), now,
      && !s.closed && !s.translation && !s.music && !InFloor(s, now)
      && s.call.None? && !TooSoonAfterCue(s, now))
  {}

  lemma FloorLapsedStarts(s: State, now: int)
    ensures Attempts(s, FloorLapsed(s, now), now,
      && s.held.Some? && s.call.None?
      && !s.closed && !s.translation && !s.music && !TooSoonAfterCue(s, now))
  {}

  lemma Reached(run: seq<(Event, int)>, s: State, now: int)
    requires IsRun(INIT, 0, run, s) && EndsAt(0, run) <= now
    ensures Inv(s, now) && PastOk(s, now)
  {
    InitInv(0);
    RunsKeep(INIT, 0, run, s);
    LaterStillTimed(s, EndsAt(0, run), now);
    RunsReason(INIT, 0, run, s);
  }

  lemma EventStarts(s: State, e: Event, now: int)
    requires Inv(s, now) && PastOk(s, now) && Enabled(s, e, now)
    ensures Attempts(if e.End? then s.(call := None) else s, Step(s, e, now), now, Calls(s, e) && Clear(s, now))
  {
    GatesSay(s, now);
    match e
    case Final(text, endMs) => ConsiderStarts(s, now, text, endMs);
    case FloorTimer => FloorLapsedStarts(s, now);
    case End => CatchUpStarts(s.(call := None), now);
    case _ =>
  }

  /**
   * In every run, an attempt starts at an event exactly when a turn calls for one and nothing stands
   * in its way; no other event starts one.
   */
  lemma AttemptStartsIff(run: seq<(Event, int)>, s: State, e: Event, now: int)
    requires IsRun(INIT, 0, run, s) && EndsAt(0, run) <= now && Enabled(s, e, now)
    ensures Attempts(if e.End? then s.(call := None) else s, Step(s, e, now), now, Calls(s, e) && Clear(s, now))
  {
    Reached(run, s, now);
    EventStarts(s, e, now);
  }

  // ---- Over the whole past -------------------------------------------------

  /** At time t, after the first m changes and before the next, no run was live. */
  predicate QuietAt(changes: seq<Change>, t: int, m: int) {
    && 0 <= m <= |changes|
    && (m > 0 ==> changes[m - 1].at <= t && !changes[m - 1].live)
    && (m < |changes| ==> t <= changes[m].at)
  }

  ghost predicate Ungated(past: Past, t: int) {
    (exists m :: QuietAt(past.changes, t, m)) && (past.closedAt.Some? ==> t <= past.closedAt.value)
  }

  ghost predicate AllUngated(s: State) {
    forall k :: 0 <= k < |s.attempts| ==> Ungated(s.past, s.attempts[k].at)
  }

  /** Changes come in order, and no attempt is from later than now. */
  lemma UngatedStays(past: Past, later: Past, t: int, now: int)
    requires Ungated(past, t) && t <= now && Later(past, now, later, now)
    requires later.closedAt.Some? && past.closedAt.None? ==> later.closedAt == Some(now)
    ensures Ungated(later, t)
  {
    var m :| QuietAt(past.changes, t, m);
    assert QuietAt(later.changes, t, m);
  }

  lemma ClearIsUngated(s: State, now: int)
    requires PastOk(s, now) && Clear(s, now)
    ensures Ungated(s.past, now)
  {
    assert QuietAt(s.past.changes, now, |s.past.changes|);
  }

  lemma CatchUpPast(s: State, now: int)
    requires s.call.None?
    ensures CatchUp(s, now).past == s.past
  {}

  lemma StepPast(s: State, e: Event, now: int)
    requires Enabled(s, e, now) && PastOk(s, now)
    ensures Later(s.past, now, Step(s, e, now).past, now)
    ensures Step(s, e, now).past.closedAt.Some? && s.past.closedAt.None? ==>
              Step(s, e, now).past.closedAt == Some(now)
  {
    if e.End? { CatchUpPast(s.(call := None), now); }
    if e.FloorTimer? && s.call.None? {
      CatchUpPast(s.(timer := None, held := None, missed := s.held, turns := Refate(s.turns, Missed, Missed)), now);
    }
  }

  lemma AttemptsSoFar(s: State, now: int, k: nat)
    requires Inv(s, now) && k < |s.attempts|
    ensures s.attempts[k].at <= now
  {
    var times := StartTimes(s.attempts);
    if k < |times| - 1 { SpacedPair(times, ATTEMPT_INTERVAL_MS, k, |times| - 1); }
    assert times[k] == s.attempts[k].at;
  }

  lemma StepUngated(s: State, e: Event, now: int)
    requires Inv(s, now) && PastOk(s, now) && Enabled(s, e, now) && AllUngated(s)
    ensures AllUngated(Step(s, e, now))
  {
    var t := Step(s, e, now);
    EventStarts(s, e, now);
    StepPast(s, e, now);
    forall k | 0 <= k < |t.attempts| ensures Ungated(t.past, t.attempts[k].at) {
      if k < |s.attempts| {
        AttemptsSoFar(s, now, k);
        assert t.attempts[k] == s.attempts[k];
      } else {
        ClearIsUngated(s, now);
      }
      UngatedStays(s.past, t.past, t.attempts[k].at, now);
    }
  }

  lemma {:induction false} RunsUngated(s: State, now: int, run: seq<(Event, int)>, end: State)
    requires Inv(s, now) && Reasons(s, now) && AllUngated(s) && IsRun(s, now, run, end)
    ensures AllUngated(end)
    decreases |run|
  {
    if |run| > 0 {
      LaterStillTimed(s, now, run[0].1);
      ReasonsStay(s.turns, s.past, now, s.past, run[0].1);
      StepUngated(s, run[0].0, run[0].1);
      StepKeeps(s, run[0].0, run[0].1);
      StepReasons(s, run[0].0, run[0].1);
      RunsUngated(Step(s, run[0].0, run[0].1), run[0].1, run[1..], end);
    }
  }

  /** In every run, each attempt started while no translation or song run was live, and before the close. */
  lemma NoAttemptInARun(run: seq<(Event, int)>, end: State, k: nat)
    requires IsRun(INIT, 0, run, end) && k < |end.attempts|
    ensures Ungated(end.past, end.attempts[k].at)
  {
    InitInv(0);
    RunsUngated(INIT, 0, run, end);
  }

  // ---- What it is stamped with ---------------------------------------------

  /** Some turn with this fate ended at the time kept for it. */
  ghost predicate KeptFor(turns: seq<Turn>, kept: Option<int>, fate: Fate) {
    kept.Some? ==> exists k :: 0 <= k < |turns| && EndedAs(turns[k], kept.value, fate)
  }

  predicate EndedAs(turn: Turn, endMs: int, fate: Fate) { turn.fate == fate && turn.endMs == endMs }

  ghost predicate Stamped(s: State) {
    && KeptFor(s.turns, s.held, Held) && KeptFor(s.turns, s.missed, Missed)
    && |s.seen| == |s.attempts|
    && forall n :: 0 <= n < |s.attempts| ==> StampOk(s.turns, s.attempts, n)
  }

  /** An attempt is stamped with the end of a turn it was the first to see. */
  ghost predicate StampOk(turns: seq<Turn>, attempts: seq<Attempt>, n: nat)
    requires n < |attempts|
  {
    exists k :: 0 <= k < |turns| && EndedAs(turns[k], attempts[n].stamp, Covered(n))
  }

  lemma KeptStays(turns: seq<Turn>, later: seq<Turn>, kept: Option<int>, fate: Fate)
    requires KeptFor(turns, kept, fate) && turns <= later
    ensures KeptFor(later, kept, fate)
  {
    if kept.Some? {
      var k :| 0 <= k < |turns| && EndedAs(turns[k], kept.value, fate);
      assert EndedAs(later[k], kept.value, fate);
    }
  }

  lemma StampStays(turns: seq<Turn>, later: seq<Turn>, attempts: seq<Attempt>, n: nat)
    requires n < |attempts| && StampOk(turns, attempts, n) && turns <= later
    ensures StampOk(later, attempts, n)
  {
    var k :| 0 <= k < |turns| && EndedAs(turns[k], attempts[n].stamp, Covered(n));
    assert EndedAs(later[k], attempts[n].stamp, Covered(n));
  }

  lemma StampRefated(turns: seq<Turn>, held: Fate, missed: Fate, attempts: seq<Attempt>, n: nat)
    requires n < |attempts| && StampOk(turns, attempts, n)
    ensures StampOk(Refate(turns, held, missed), attempts, n)
  {
    var k :| 0 <= k < |turns| && EndedAs(turns[k], attempts[n].stamp, Covered(n));
    assert EndedAs(Refate(turns, held, missed)[k], attempts[n].stamp, Covered(n));
  }

  lemma AddTurnStamped(s: State, text: string, endMs: int, fate: Fate)
    requires Stamped(s)
    ensures Stamped(AddTurn(s, text, endMs, fate))
    ensures KeptFor(AddTurn(s, text, endMs, fate).turns, Some(endMs), fate)
  {
    var t := AddTurn(s, text, endMs, fate);
    KeptStays(s.turns, t.turns, s.held, Held);
    KeptStays(s.turns, t.turns, s.missed, Missed);
    forall n | 0 <= n < |t.attempts| ensures StampOk(t.turns, t.attempts, n) {
      StampStays(s.turns, t.turns, s.attempts, n);
    }
    assert EndedAs(t.turns[|s.turns|], endMs, fate);
  }

  /** The attempt covers whatever waits, among it the turn it is stamped for. */
  lemma StartStamped(s: State, now: int, stamp: int, fate: Fate)
    requires s.call.None? && Stamped(s) && s.missed.None? && (fate == Held || fate == Missed)
    requires KeptFor(s.turns, Some(stamp), fate)
    ensures Stamped(Start(s, now, stamp))
  {
    var t, n := Start(s, now, stamp), |s.attempts|;
    forall m | 0 <= m < |t.attempts| ensures StampOk(t.turns, t.attempts, m) {
      if m < n {
        StampRefated(s.turns, Covered(n), Covered(n), s.attempts, m);
        var k :| 0 <= k < |t.turns| && EndedAs(t.turns[k], s.attempts[m].stamp, Covered(m));
        assert EndedAs(t.turns[k], t.attempts[m].stamp, Covered(m));
      } else {
        var k :| 0 <= k < |s.turns| && EndedAs(s.turns[k], stamp, fate);
        assert EndedAs(t.turns[k], stamp, Covered(n));
      }
    }
  }

  lemma ConsiderStamped(s: State, now: int, text: string, endMs: int)
    requires Stamped(s) && (s.call.None? ==> s.missed.None?)
    ensures Stamped(Consider(s, now, text, endMs))
  {
    if s.closed {
    } else if s.translation || s.music {
      AddTurnStamped(s, text, endMs, s.past.Gated(now));
    } else if InFloor(s, now) {
      AddTurnStamped(s, text, endMs, Held);
    } else if s.call.Some? {
      AddTurnStamped(s, text, endMs, Missed);
    } else if TooSoonAfterCue(s, now) {
      AddTurnStamped(s, text, endMs, s.past.Soon(now));
    } else {
      AddTurnStamped(s, text, endMs, Held);
      StartStamped(AddTurn(s, text, endMs, Held), now, endMs, Held);
    }
  }

  /** Turning one waiting fate into another leaves the other as it was. */
  lemma RefateStamped(s: State, t: State, held: Fate, missed: Fate)
    requires Stamped(s) && t.turns == Refate(s.turns, held, missed)
    requires t.attempts == s.attempts && t.seen == s.seen
    requires KeptFor(t.turns, t.held, Held) && KeptFor(t.turns, t.missed, Missed)
    ensures Stamped(t)
  {
    forall n | 0 <= n < |t.attempts| ensures StampOk(t.turns, t.attempts, n) {
      StampRefated(s.turns, held, missed, s.attempts, n);
    }
  }

  lemma HeldRefated(turns: seq<Turn>, kept: Option<int>, missed: Fate)
    requires KeptFor(turns, kept, Held)
    ensures KeptFor(Refate(turns, Held, missed), kept, Held)
    ensures KeptFor(Refate(turns, Missed, Missed), kept, Missed)
  {
    if kept.Some? {
      var k :| 0 <= k < |turns| && EndedAs(turns[k], kept.value, Held);
      assert EndedAs(Refate(turns, Held, missed)[k], kept.value, Held);
      assert EndedAs(Refate(turns, Missed, Missed)[k], kept.value, Missed);
    }
  }

  lemma CatchUpStamped(s: State, now: int)
    requires s.call.None? && Stamped(s)
    ensures Stamped(CatchUp(s, now))
  {
    var t := CatchUp(s, now);
    if s.missed.None? {
    } else if s.closed || s.translation || s.music || TooSoonAfterCue(s, now) {
      var fate :=
        if s.closed then Ended(now) else if s.translation || s.music then s.past.Gated(now) else s.past.Soon(now);
      HeldRefated(s.turns, s.held, fate);
      RefateStamped(s, t, Held, fate);
    } else {
      StartStamped(s.(missed := None), now, s.missed.value, Missed);
    }
  }

  lemma FloorLapsedStamped(s: State, now: int)
    requires Stamped(s)
    ensures Stamped(FloorLapsed(s, now))
  {
    if s.held.Some? {
      var u := s.(timer := None, held := None, missed := s.held, turns := Refate(s.turns, Missed, Missed));
      HeldRefated(s.turns, s.held, Missed);
      RefateStamped(s, u, Missed, Missed);
      if s.call.None? { CatchUpStamped(u, now); }
    }
  }

  lemma StepStamped(s: State, e: Event, now: int)
    requires Inv(s, now) && Stamped(s) && Enabled(s, e, now)
    ensures Stamped(Step(s, e, now))
  {
    match e
    case Final(text, endMs) => ConsiderStamped(s, now, text, endMs);
    case FloorTimer => FloorLapsedStamped(s, now);
    case End => CatchUpStamped(s.(call := None), now);
    case _ =>
  }

  lemma {:induction false} RunsStamped(s: State, now: int, run: seq<(Event, int)>, end: State)
    requires Inv(s, now) && Stamped(s) && IsRun(s, now, run, end)
    ensures Stamped(end)
    decreases |run|
  {
    if |run| > 0 {
      LaterStillTimed(s, now, run[0].1);
      StepStamped(s, run[0].0, run[0].1);
      StepKeeps(s, run[0].0, run[0].1);
      RunsStamped(Step(s, run[0].0, run[0].1), run[0].1, run[1..], end);
    }
  }

  /** In every run, an attempt carries the end time of a turn that no attempt before it had seen. */
  lemma StampIsOfATurn(run: seq<(Event, int)>, end: State, n: nat)
    requires IsRun(INIT, 0, run, end) && n < |end.attempts|
    ensures exists k :: 0 <= k < |end.turns| && EndedAs(end.turns[k], end.attempts[n].stamp, Covered(n))
  {
    InitInv(0);
    RunsStamped(INIT, 0, run, end);
    assert StampOk(end.turns, end.attempts, n);
  }

  // ---- What it is shown ----------------------------------------------------

  /** The texts of the turns that have any. */
  function Texts(turns: seq<Turn>): seq<string> {
    if |turns| == 0 then [] else
      var last := turns[|turns| - 1].text;
      Texts(turns[..|turns| - 1]) + (if last == "" then [] else [last])
  }

  /** A window is the newest texts, up to its size, oldest first. */
  lemma {:induction false} WindowIsNewest(turns: seq<Turn>)
    ensures var texts := Texts(turns);
      Window(turns) == if |texts| <= CONTEXT_SEGMENTS then texts else texts[|texts| - CONTEXT_SEGMENTS..]
  {
    if |turns| > 0 {
      var front := turns[..|turns| - 1];
      WindowIsNewest(front);
      var texts := Texts(front);
      assert |texts| >= CONTEXT_SEGMENTS ==>
        texts[|texts| - CONTEXT_SEGMENTS..][1..] == texts[|texts| + 1 - CONTEXT_SEGMENTS..];
    }
  }

  // ---- Which turns there are -----------------------------------------------

  /** The finals of a run up to the close. */
  function Finals(run: seq<(Event, int)>): seq<(string, int)> {
    if |run| == 0 || run[0].0.Close? then []
    else (if run[0].0.Final? then [(run[0].0.text, run[0].0.endMs)] else []) + Finals(run[1..])
  }

  function Said(turns: seq<Turn>): (r: seq<(string, int)>)
    ensures |r| == |turns|
  {
    seq(|turns|, k requires 0 <= k < |turns| => (turns[k].text, turns[k].endMs))
  }

  lemma StepSaid(s: State, e: Event, now: int)
    requires Enabled(s, e, now)
    ensures Said(Step(s, e, now).turns) ==
      Said(s.turns) + (if e.Final? && !s.closed then [(e.text, e.endMs)] else [])
    ensures Step(s, e, now).closed <==> s.closed || e.Close?
  {
    match e
    case End => SaidCaughtUp(s.(call := None), now);
    case FloorTimer => SaidLapsed(s, now);
    case _ =>
  }

  lemma SaidCaughtUp(s: State, now: int)
    requires s.call.None?
    ensures Said(CatchUp(s, now).turns) == Said(s.turns) && CatchUp(s, now).closed == s.closed
  {}

  lemma SaidLapsed(s: State, now: int)
    ensures Said(FloorLapsed(s, now).turns) == Said(s.turns) && FloorLapsed(s, now).closed == s.closed
  {
    var u := s.(timer := None, held := None, missed := s.held, turns := Refate(s.turns, Missed, Missed));
    assert Said(u.turns) == Said(s.turns);
    if s.call.None? { SaidCaughtUp(u, now); }
  }

  lemma {:induction false} RunSaid(s: State, now: int, run: seq<(Event, int)>, end: State)
    requires IsRun(s, now, run, end)
    ensures Said(end.turns) == Said(s.turns) + (if s.closed then [] else Finals(run))
    decreases |run|
  {
    if |run| > 0 {
      var t := Step(s, run[0].0, run[0].1);
      StepSaid(s, run[0].0, run[0].1);
      RunSaid(t, run[0].1, run[1..], end);
      var one := if run[0].0.Final? then [(run[0].0.text, run[0].0.endMs)] else [];
      var rest := Finals(run[1..]);
      assert (Said(s.turns) + one) + rest == Said(s.turns) + (one + rest);
    }
  }

  /** The turns of a run are its finals up to the close, in order: none is left out, none made up. */
  lemma EveryFinalIsATurn(run: seq<(Event, int)>, end: State)
    requires IsRun(INIT, 0, run, end)
    ensures Said(end.turns) == Finals(run)
  {
    RunSaid(INIT, 0, run, end);
    assert Said(INIT.turns) + Finals(run) == Finals(run);
  }
}
