/**
 * The batch replay of cue gating (scripts/cue_eval/replay.py), with realtime spacing and the
 * shipped gate, and the proof that it starts exactly the attempts the live scheduler starts.
 */
module CueReplay {
  import opened Prelude
  import opened CueGate
  import opened CueInvariants
  import opened CueTimeline
  import CueSession

  const NEVER: int := -1_000_000_000

  /** The replay's clocks and pending finals. The outcome of a call is known as it starts. */
  datatype Sim = Sim(
    recent: seq<string>, nextFreeMs: int, lastEmitMs: int, lastAttemptMs: int,
    missed: Option<int>, held: Option<int>, shown: bool, attempts: seq<Attempt>)

  /** `attempt(at, stamp, ...)`. */
  function Attempted(r: Sim, oracle: nat -> Outcome, at: int, stamp: int): Sim {
    var o := oracle(|r.attempts|);
    r.(nextFreeMs := at + o.latencyMs, lastAttemptMs := at, held := None, shown := o.shown,
       lastEmitMs := if o.shown then at + o.latencyMs else r.lastEmitMs,
       attempts := r.attempts + [Attempt(at, stamp, r.recent)])
  }

  function Clock(t: Option<int>): int { if t.Some? then t.value else NEVER }

  /**
   * The replay has the live session's state at time c, except that it already knows how the call
   * in flight ends, and notices the end of a call only when something waits for it.
   */
  ghost predicate Follows(r: Sim, s: State, oracle: nat -> Outcome, c: int) {
    && Inv(s, c) && c >= 0 && !s.closed && !s.translation && !s.music
    && r.recent == s.recent && r.attempts == s.attempts
    && r.lastAttemptMs == Clock(s.lastAttempt) && (s.lastAttempt.Some? ==> s.lastAttempt.value >= 0)
    && (s.lastCue.Some? ==> s.lastCue.value >= 0)
    && r.missed == s.missed && r.held == s.held
    && (s.timer.Some? ==> s.timer.value >= c)
    && (s.call.None? ==> r.nextFreeMs <= c && r.lastEmitMs == Clock(s.lastCue))
    && (s.call.Some? ==> s.attempts != [] && InFlight(r, s, oracle, c))
  }

  ghost predicate InFlight(r: Sim, s: State, oracle: nat -> Outcome, c: int)
    requires s.call.Some? && s.attempts != []
  {
    var o := oracle(|s.attempts| - 1);
    && !s.call.value.shown && EndOf(s, oracle) >= c
    && r.nextFreeMs == EndOf(s, oracle) && r.shown == o.shown
    && r.lastEmitMs == if o.shown then EndOf(s, oracle) else Clock(s.lastCue)
  }

  // ---- One event on both sides ---------------------------------------------

  /** The two sides agree while no call is in flight. */
  ghost predicate Idle(r: Sim, s: State, oracle: nat -> Outcome, c: int) {
    && s.call.None? && s.missed.None? && r.missed.None?
    && Timed(s, c) && Recorded(s) && c >= 0 && !s.closed && !s.translation && !s.music
    && r.recent == s.recent && r.attempts == s.attempts
    && (s.lastCue.Some? ==> s.lastCue.value >= 0) && r.lastEmitMs == Clock(s.lastCue)
  }

  lemma StartFollows(r: Sim, s: State, oracle: nat -> Outcome, c: int, stamp: int)
    requires Idle(r, s, oracle, c) && !InFloor(s, c) && !TooSoonAfterCue(s, c)
    ensures Follows(Attempted(r, oracle, c, stamp), Start(s, c, stamp), oracle, c)
  {
    StartKeeps(s, c, stamp, c);
  }

  /** A call that ends with nothing waiting for it leaves the replay as it is. */
  lemma QuietEndFollows(r: Sim, s: State, oracle: nat -> Outcome, c: int)
    requires Follows(r, s, oracle, c) && s.call.Some? && s.missed.None?
    requires s.timer.Some? ==> EndOf(s, oracle) <= s.timer.value
    ensures Follows(r, FinishCall(s, oracle, EndOf(s, oracle)), oracle, EndOf(s, oracle))
  {
    var end := EndOf(s, oracle);
    LaterStillTimed(s, c, end);
    if oracle(|s.attempts| - 1).shown {
      CueShownKeeps(s, end);
      CallEndedKeeps(CueShown(s, end), end);
    } else {
      CallEndedKeeps(s, end);
    }
  }

  /** The replay's catch-up: a final waited for the call, which ends without a later event first. */
  function CaughtUp(r: Sim, oracle: nat -> Outcome): Sim
    requires r.missed.Some?
  {
    var t := r.(missed := None);
    if r.shown then t else Attempted(t, oracle, r.nextFreeMs, r.missed.value)
  }

  lemma CatchUpFollows(r: Sim, s: State, oracle: nat -> Outcome, c: int)
    requires Follows(r, s, oracle, c) && s.missed.Some?
    requires s.timer.Some? ==> EndOf(s, oracle) <= s.timer.value
    ensures Follows(CaughtUp(r, oracle), FinishCall(s, oracle, EndOf(s, oracle)), oracle, EndOf(s, oracle))
  {
    var end := EndOf(s, oracle);
    LaterStillTimed(s, c, end);
    if r.shown {
      CueShownKeeps(s, end);
      CallEndedKeeps(CueShown(s, end), end);
    } else {
      var t := s.(call := None, missed := None);
      assert Recorded(t);
      StartFollows(r.(missed := None), t, oracle, end, s.missed.value);
    }
  }

  /** The replay's lapse branch: the held final gets an attempt, or waits for the call in flight. */
  function Lapsed(r: Sim, oracle: nat -> Outcome): Sim
    requires r.held.Some?
  {
    var lapse := r.lastAttemptMs + ATTEMPT_INTERVAL_MS;
    var t := r.(held := None);
    if lapse < r.nextFreeMs then t.(missed := r.held)
    else if lapse - r.lastEmitMs >= MIN_INTERVAL_MS then Attempted(t, oracle, lapse, r.held.value)
    else t
  }

  /** With a call in flight past the timer, both sides leave the held final to it. */
  lemma LapseInFlight(r: Sim, s: State, oracle: nat -> Outcome, c: int)
    requires Follows(r, s, oracle, c) && s.held.Some? && s.call.Some? && s.timer.value < EndOf(s, oracle)
    ensures Follows(Lapsed(r, oracle), FloorLapsed(s, s.timer.value), oracle, s.timer.value)
  {
    LaterStillTimed(s, c, s.timer.value);
    FloorLapsedKeeps(s, s.timer.value);
  }

  /** With no call in flight, both sides give the held final an attempt, or the min interval drops it. */
  lemma LapseIdle(r: Sim, s: State, oracle: nat -> Outcome, c: int)
    requires Follows(r, s, oracle, c) && s.held.Some? && s.call.None?
    ensures Follows(Lapsed(r, oracle), FloorLapsed(s, s.timer.value), oracle, s.timer.value)
  {
    var lapse := s.timer.value;
    LaterStillTimed(s, c, lapse);
    FloorLapsedKeeps(s, lapse);
    assert TooSoonAfterCue(s, lapse) <==> lapse - r.lastEmitMs < MIN_INTERVAL_MS;
  }

  // ---- settle --------------------------------------------------------------

  predicate CatchDue(r: Sim, until: Option<int>) {
    r.missed.Some? && Due(r.nextFreeMs, until)
  }

  predicate LapseDue(r: Sim, until: Option<int>) {
    r.held.Some? && Due(r.lastAttemptMs + ATTEMPT_INTERVAL_MS, until)
  }

  /** One turn of `settle`'s loop: the earlier of the two, the catch-up first on a tie. */
  function SettleStep(r: Sim, oracle: nat -> Outcome, until: Option<int>): Sim
    requires CatchDue(r, until) || LapseDue(r, until)
  {
    if CatchDue(r, until) && (!LapseDue(r, until) || r.nextFreeMs <= r.lastAttemptMs + ATTEMPT_INTERVAL_MS)
    then CaughtUp(r, oracle)
    else Lapsed(r, oracle)
  }

  /** How far `settle` is from stopping. */
  function Unsettled(r: Sim): nat {
    (if r.held.Some? then 2 else 0) + (if r.missed.Some? then 1 else 0)
  }

  /** Both sides stand at a point from which the session reaches the same settled state. */
  ghost predicate OnTheWay(r: Sim, s: State, oracle: nat -> Outcome, c: int, until: Option<int>, goal: State) {
    Follows(r, s, oracle, c) && Due(c, until) && Advance(s, oracle, until) == goal
  }

  lemma StepCaughtUp(
    r: Sim, s: State, oracle: nat -> Outcome, c: int, until: Option<int>, goal: State) returns (t: State, d: int)
    requires OnTheWay(r, s, oracle, c, until, goal) && CatchDue(r, until)
    requires !LapseDue(r, until) || r.nextFreeMs <= r.lastAttemptMs + ATTEMPT_INTERVAL_MS
    ensures OnTheWay(CaughtUp(r, oracle), t, oracle, d, until, goal)
  {
    t, d := FinishCall(s, oracle, EndOf(s, oracle)), EndOf(s, oracle);
    CatchUpFollows(r, s, oracle, c);
    assert CallDue(s, oracle, until);
  }

  /** The lapse branch, with no call in flight that ends first. */
  lemma StepLapsed(
    r: Sim, s: State, oracle: nat -> Outcome, c: int, until: Option<int>, goal: State) returns (t: State, d: int)
    requires OnTheWay(r, s, oracle, c, until, goal) && LapseDue(r, until)
    requires s.call.Some? ==> s.timer.value < EndOf(s, oracle)
    ensures OnTheWay(Lapsed(r, oracle), t, oracle, d, until, goal)
  {
    t, d := FloorLapsed(s, s.timer.value), s.timer.value;
    if s.call.Some? { LapseInFlight(r, s, oracle, c); } else { LapseIdle(r, s, oracle, c); }
    assert TimerDue(s, until) && !CallDue(s, oracle, until);
  }

  /** A call that ends before the held final's timer with nothing waiting for it: no turn of the loop. */
  lemma StepQuietly(
    r: Sim, s: State, oracle: nat -> Outcome, c: int, until: Option<int>, goal: State) returns (t: State, d: int)
    requires OnTheWay(r, s, oracle, c, until, goal) && LapseDue(r, until)
    requires s.call.Some? && s.missed.None? && EndOf(s, oracle) <= s.timer.value
    ensures OnTheWay(r, t, oracle, d, until, goal) && t.call.None?
  {
    t, d := FinishCall(s, oracle, EndOf(s, oracle)), EndOf(s, oracle);
    QuietEndFollows(r, s, oracle, c);
    assert CallDue(s, oracle, until);
  }

  /** Each turn of the loop is one event of the session, or two when a quiet call end comes first. */
  lemma SettleStepFollows(
    r: Sim, s: State, oracle: nat -> Outcome, c: int, until: Option<int>, goal: State) returns (t: State, d: int)
    requires OnTheWay(r, s, oracle, c, until, goal)
    requires CatchDue(r, until) || LapseDue(r, until)
    ensures OnTheWay(SettleStep(r, oracle, until), t, oracle, d, until, goal)
  {
    if CatchDue(r, until) && (!LapseDue(r, until) || r.nextFreeMs <= r.lastAttemptMs + ATTEMPT_INTERVAL_MS) {
      t, d := StepCaughtUp(r, s, oracle, c, until, goal);
    } else {
      t, d := s, c;
      if s.call.Some? && EndOf(s, oracle) <= s.timer.value { t, d := StepQuietly(r, s, oracle, c, until, goal); }
      t, d := StepLapsed(r, t, oracle, d, until, goal);
    }
  }

  /** And leaves the loop less to do. */
  lemma SettleStepDrops(r: Sim, oracle: nat -> Outcome, until: Option<int>)
    requires CatchDue(r, until) || LapseDue(r, until)
    ensures Unsettled(SettleStep(r, oracle, until)) < Unsettled(r)
  {}

  /** With nothing due in the replay, the session settles with at most one quiet call end. */
  lemma SettledFollows(r: Sim, s: State, oracle: nat -> Outcome, c: int, until: Option<int>, goal: State)
    requires OnTheWay(r, s, oracle, c, until, goal)
    requires !CatchDue(r, until) && !LapseDue(r, until)
    ensures exists c' :: Follows(r, goal, oracle, c') && Due(c', until)
    ensures until.Some? ==> Follows(r, goal, oracle, until.value)
  {
    var d := c;
    assert !TimerDue(s, until);
    if CallDue(s, oracle, until) {
      d := EndOf(s, oracle);
      QuietEndFollows(r, s, oracle, c);
      var t := FinishCall(s, oracle, d);
      assert t.call.None? && t.timer == s.timer;
      assert Advance(t, oracle, until) == t;
    }
    assert Follows(r, goal, oracle, d);
    if until.Some? { LaterStillTimed(goal, d, until.value); AdvanceSettles(s, oracle, until); }
  }

  // ---- A final -------------------------------------------------------------

  /** What the main loop does with a final once everything due before it has settled. */
  function Finalized(r: Sim, oracle: nat -> Outcome, text: string, at: int): Sim {
    var t := r.(recent := Remember(r.recent, text));
    if at - r.lastAttemptMs < ATTEMPT_INTERVAL_MS then t.(held := Some(at))
    else if at < r.nextFreeMs then t.(missed := Some(at))
    else if at - r.lastEmitMs < MIN_INTERVAL_MS then t
    else Attempted(t, oracle, at, at)
  }

  lemma FinalFollows(r: Sim, s: State, oracle: nat -> Outcome, text: string, at: int)
    requires Follows(r, s, oracle, at) && !CallDue(s, oracle, Some(at)) && !TimerDue(s, Some(at))
    ensures Follows(Finalized(r, oracle, text, at), Consider(s, at, text, at), oracle, at)
  {
    ConsiderKeeps(s, at, text, at);
    if !InFloor(s, at) && s.call.None? && !TooSoonAfterCue(s, at) {
      AddTurnRecorded(s, text, at, Held);
      StartFollows(r.(recent := Remember(r.recent, text)), AddTurn(s, text, at, Held), oracle, at, at);
    }
  }

  // ---- The replay itself ---------------------------------------------------

  /** `replay_conversation`'s nonlocals, updated in place by its nested functions. */
  class Replay {
    var recent: seq<string>
    var nextFreeMs: int
    var lastEmitMs: int
    var lastAttemptMs: int
    var missed: Option<int>
    var held: Option<int>
    var shown: bool
    var attempts: seq<Attempt>

    ghost function View(): Sim
      reads this
    {
      Sim(recent, nextFreeMs, lastEmitMs, lastAttemptMs, missed, held, shown, attempts)
    }

    constructor ()
      ensures View() == Sim([], 0, NEVER, NEVER, None, None, false, [])
    {
      recent, nextFreeMs, lastEmitMs, lastAttemptMs := [], 0, NEVER, NEVER;
      missed, held, shown, attempts := None, None, false, [];
    }

    /** `attempt`: one call starting at `at`, whose outcome the oracle gives. */
    method Attempt(oracle: nat -> Outcome, at: int, stamp: int) returns (showed: bool)
      modifies this
      ensures showed == oracle(|old(attempts)|).shown
      ensures View().(shown := showed) == Attempted(old(View()), oracle, at, stamp) && shown == old(shown)
    {
      var outcome := oracle(|attempts|);
      lastAttemptMs := at;
      held := None;
      attempts := attempts + [CueGate.Attempt(at, stamp, recent)];
      nextFreeMs := at + outcome.latencyMs;
      showed := outcome.shown;
      if showed {
        lastEmitMs := at + outcome.latencyMs;
      }
    }

    /** The body of `settle`'s loop, when something is due. */
    method SettleOnce(oracle: nat -> Outcome, until: Option<int>)
      requires CatchDue(View(), until) || LapseDue(View(), until)
      modifies this
      ensures View() == SettleStep(old(View()), oracle, until)
    {
      var catchDue := missed.Some? && Due(nextFreeMs, until);
      var lapseAt := lastAttemptMs + ATTEMPT_INTERVAL_MS;
      var lapseDue := held.Some? && Due(lapseAt, until);
      if catchDue && (!lapseDue || nextFreeMs <= lapseAt) {
        var stamp := missed.value;
        missed := None;
        if !shown {
          shown := Attempt(oracle, nextFreeMs, stamp);
        }
      } else {
        var stamp := held.value;
        held := None;
        if lapseAt < nextFreeMs {
          missed := Some(stamp);
        } else if lapseAt - lastEmitMs >= MIN_INTERVAL_MS {
          shown := Attempt(oracle, lapseAt, stamp);
        }
      }
    }

    /** `settle`: afterwards the replay has the state the live session settles into. */
    method Settle(oracle: nat -> Outcome, until: Option<int>, ghost s0: State, ghost c0: int)
      requires Follows(View(), s0, oracle, c0) && Due(c0, until)
      modifies this
      ensures until.Some? ==> Follows(View(), Advance(s0, oracle, until), oracle, until.value)
      ensures exists c :: Follows(View(), Advance(s0, oracle, until), oracle, c)
    {
      ghost var goal := Advance(s0, oracle, until);
      ghost var s, c := s0, c0;
      while (missed.Some? && Due(nextFreeMs, until)) || (held.Some? && Due(lastAttemptMs + ATTEMPT_INTERVAL_MS, until))
        invariant OnTheWay(View(), s, oracle, c, until, goal)
        decreases Unsettled(View())
      {
        s, c := SettleStepFollows(View(), s, oracle, c, until, goal);
        SettleStepDrops(View(), oracle, until);
        SettleOnce(oracle, until);
      }
      SettledFollows(View(), s, oracle, c, until, goal);
    }

    /** What follows `settle` in the main loop's body. */
    method LetIn(oracle: nat -> Outcome, text: string, at: int)
      modifies this
      ensures View() == Finalized(old(View()), oracle, text, at)
    {
      recent := Remember(recent, text);
      if at - lastAttemptMs < ATTEMPT_INTERVAL_MS {
        held := Some(at);
      } else if at < nextFreeMs {
        missed := Some(at);
      } else if at - lastEmitMs >= MIN_INTERVAL_MS {
        shown := Attempt(oracle, at, at);
      }
    }

    /** The main loop's body: settle what is due, then let the final in. */
    method OnSegment(oracle: nat -> Outcome, segment: Segment, ghost s: State, ghost c: int)
      requires Follows(View(), s, oracle, c) && c <= segment.endMs && segment.text != ""
      modifies this
      ensures var at := segment.endMs;
              Follows(View(), Consider(Advance(s, oracle, Some(at)), at, segment.text, at), oracle, at)
    {
      var at := segment.endMs;
      Settle(oracle, Some(at), s, c);
      AdvanceSettles(s, oracle, Some(at));
      FinalFollows(View(), Advance(s, oracle, Some(at)), oracle, segment.text, at);
      LetIn(oracle, segment.text, at);
    }
  }

  /**
   * Replaying a transcript starts exactly the attempts of a live session on it: the same times, stamps
   * and windows, whatever the calls' latencies and outcomes. There is such a session, and only one:
   * a run of the scheduler over the transcript's turns in which everything happens when it is due.
   */
  method ReplayConversation(segments: seq<Segment>, oracle: nat -> Outcome) returns (attempts: seq<Attempt>)
    requires Chronological(segments)
    ensures attempts == WholeSession(segments, oracle).attempts
    ensures exists run, end :: CueSession.IsSession(segments, oracle, run, end) && attempts == end.attempts
    ensures forall run, end :: CueSession.IsSession(segments, oracle, run, end) ==> attempts == end.attempts
  {
    var replay := new Replay();
    ghost var c := 0;
    InitInv(0);
    assert segments[..0] == [];
    for i := 0 to |segments|
      invariant Follows(replay.View(), Live(segments[..i], oracle), oracle, c)
      invariant i > 0 ==> c <= segments[i - 1].endMs
      invariant i == 0 ==> c == 0
    {
      var segment := segments[i];
      assert segments[..i + 1][..i] == segments[..i];
      if segment.text != "" {
        replay.OnSegment(oracle, segment, Live(segments[..i], oracle), c);
        c := segment.endMs;
      }
    }
    assert segments[..|segments|] == segments;
    replay.Settle(oracle, None, Live(segments, oracle), c);
    attempts := replay.attempts;
    CueSession.SessionIsTimely(segments, oracle);
    forall run, end | CueSession.IsSession(segments, oracle, run, end) ensures attempts == end.attempts {
      CueSession.OnlySession(segments, oracle, run, end);
    }
  }
}
