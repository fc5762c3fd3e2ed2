/** A turn the cue gate passed over was passed over for the reason recorded with it. */
module CueReasons {
  import opened Prelude
  import opened CueGate
  import opened CueInvariants

  /** A cue had been shown within the min interval; a run was live; or the session had closed. */
  ghost predicate ReasonOk(past: Past, now: int, fate: Fate) {
    match fate
    case TooSoon(at, cue) =>
      0 <= cue < |past.shows| && past.shows[cue] <= at <= now && at - past.shows[cue] < MIN_INTERVAL_MS
    case RunGated(at, change) =>
      && 0 <= change < |past.changes| && past.changes[change].live && past.changes[change].at <= at <= now
      && (change + 1 < |past.changes| ==> at <= past.changes[change + 1].at)
    case Ended(at) => past.closedAt.Some? && past.closedAt.value <= at <= now
    case _ => true
  }

  /** The newest change says whether a run is live, and the past is past. */
  ghost predicate PastOk(s: State, now: int) {
    var changes := s.past.changes;
    && (s.closed <==> s.past.closedAt.Some?) && (s.closed ==> s.past.closedAt.value <= now)
    && (s.translation || s.music <==> changes != [] && changes[|changes| - 1].live)
    && (changes != [] ==> changes[|changes| - 1].at <= now)
    && (s.lastCue.Some? <==> s.past.shows != [])
    && (s.lastCue.Some? ==> s.lastCue.value == s.past.shows[|s.past.shows| - 1] <= now)
  }

  ghost predicate AllReasons(turns: seq<Turn>, past: Past, now: int) {
    forall k :: 0 <= k < |turns| ==> ReasonOk(past, now, turns[k].fate)
  }

  ghost predicate Reasons(s: State, now: int) {
    PastOk(s, now) && AllReasons(s.turns, s.past, now)
  }

  /** What has happened stays so, and reasons with it. */
  ghost predicate Later(past: Past, was: int, later: Past, now: int) {
    && was <= now && past.shows <= later.shows && past.changes <= later.changes
    && (past.closedAt.Some? ==> later.closedAt == past.closedAt)
    && (forall k :: |past.changes| <= k < |later.changes| ==> was <= later.changes[k].at)
  }

  lemma ReasonStays(past: Past, was: int, later: Past, now: int, fate: Fate)
    requires ReasonOk(past, was, fate) && Later(past, was, later, now)
    ensures ReasonOk(later, now, fate)
  {}

  lemma ReasonsStay(turns: seq<Turn>, past: Past, was: int, later: Past, now: int)
    requires AllReasons(turns, past, was) && Later(past, was, later, now)
    ensures AllReasons(turns, later, now)
  {
    forall k | 0 <= k < |turns| ensures ReasonOk(later, now, turns[k].fate) {
      ReasonStays(past, was, later, now, turns[k].fate);
    }
  }

  lemma RefateReasons(turns: seq<Turn>, past: Past, now: int, held: Fate, missed: Fate)
    requires AllReasons(turns, past, now) && ReasonOk(past, now, held) && ReasonOk(past, now, missed)
    ensures AllReasons(Refate(turns, held, missed), past, now)
  {
    forall k | 0 <= k < |turns| ensures ReasonOk(past, now, Refate(turns, held, missed)[k].fate) {
      assert ReasonOk(past, now, turns[k].fate);
    }
  }

  lemma AddTurnReasons(s: State, now: int, text: string, endMs: int, fate: Fate)
    requires Reasons(s, now) && ReasonOk(s.past, now, fate)
    ensures Reasons(AddTurn(s, text, endMs, fate), now)
  {
    var t := AddTurn(s, text, endMs, fate);
    forall k | 0 <= k < |t.turns| ensures ReasonOk(s.past, now, t.turns[k].fate) {
      if k < |s.turns| { assert ReasonOk(s.past, now, s.turns[k].fate); }
    }
  }

  /** The gates, when shut, give their reason. */
  lemma GateReasons(s: State, now: int)
    requires PastOk(s, now)
    ensures s.closed ==> ReasonOk(s.past, now, Ended(now))
    ensures s.translation || s.music ==> ReasonOk(s.past, now, s.past.Gated(now))
    ensures TooSoonAfterCue(s, now) ==> ReasonOk(s.past, now, s.past.Soon(now))
  {}

  lemma StartReasons(s: State, now: int, stamp: int)
    requires s.call.None? && Reasons(s, now)
    ensures Reasons(Start(s, now, stamp), now)
  {
    RefateReasons(s.turns, s.past, now, Covered(|s.attempts|), Covered(|s.attempts|));
  }

  lemma ConsiderReasons(s: State, now: int, text: string, endMs: int)
    requires Reasons(s, now)
    ensures Reasons(Consider(s, now, text, endMs), now)
  {
    GateReasons(s, now);
    if s.closed {
    } else if s.translation || s.music {
      AddTurnReasons(s, now, text, endMs, s.past.Gated(now));
    } else if InFloor(s, now) {
      AddTurnReasons(s, now, text, endMs, Held);
    } else if s.call.Some? {
      AddTurnReasons(s, now, text, endMs, Missed);
    } else if TooSoonAfterCue(s, now) {
      AddTurnReasons(s, now, text, endMs, s.past.Soon(now));
    } else {
      AddTurnReasons(s, now, text, endMs, Held);
      StartReasons(AddTurn(s, text, endMs, Held), now, endMs);
    }
  }

  lemma CatchUpReasons(s: State, now: int)
    requires s.call.None? && Reasons(s, now)
    ensures Reasons(CatchUp(s, now), now)
  {
    GateReasons(s, now);
    if s.missed.None? {
    } else if s.closed || s.translation || s.music || TooSoonAfterCue(s, now) {
      var fate :=
        if s.closed then Ended(now) else if s.translation || s.music then s.past.Gated(now) else s.past.Soon(now);
      RefateReasons(s.turns, s.past, now, Held, fate);
    } else {
      StartReasons(s.(missed := None), now, s.missed.value);
    }
  }

  lemma FloorLapsedReasons(s: State, now: int)
    requires Reasons(s, now)
    ensures Reasons(FloorLapsed(s, now), now)
  {
    if s.held.Some? {
      RefateReasons(s.turns, s.past, now, Missed, Missed);
      if s.call.None? {
        CatchUpReasons(
          s.(timer := None, held := None, missed := s.held, turns := Refate(s.turns, Missed, Missed)), now);
      }
    }
  }

  lemma StepReasons(s: State, e: Event, now: int)
    requires Reasons(s, now) && Enabled(s, e, now)
    ensures Reasons(Step(s, e, now), now)
  {
    match e
    case Final(text, endMs) => ConsiderReasons(s, now, text, endMs);
    case FloorTimer => FloorLapsedReasons(s, now);
    case End => CatchUpReasons(s.(call := None), now);
    case Show => ReasonsStay(s.turns, s.past, now, Step(s, e, now).past, now);
    case Runs(_, _) => ReasonsStay(s.turns, s.past, now, Step(s, e, now).past, now);
    case Close => ReasonsStay(s.turns, s.past, now, Step(s, e, now).past, now);
  }

  lemma {:induction false} RunsReason(s: State, now: int, run: seq<(Event, int)>, end: State)
    requires Reasons(s, now) && IsRun(s, now, run, end)
    ensures Reasons(end, EndsAt(now, run))
    decreases |run|
  {
    if |run| > 0 {
      ReasonsStay(s.turns, s.past, now, s.past, run[0].1);
      StepReasons(s, run[0].0, run[0].1);
      RunsReason(Step(s, run[0].0, run[0].1), run[0].1, run[1..], end);
    }
  }

  /**
   * After any run, a turn passed over for the min interval came less than it after a cue that had
   * been shown; one passed over for a run came while one was live, before the next change; and one
   * dropped at the end came after the close.
   */
  lemma PassedOverForReason(run: seq<(Event, int)>, end: State, k: nat)
    requires IsRun(INIT, 0, run, end) && k < |end.turns|
    ensures ReasonOk(end.past, EndsAt(0, run), end.turns[k].fate)
  {
    RunsReason(INIT, 0, run, end);
  }
}
