/**
 * The cue attempt scheduler of a live session (api/src/api/session.py): what each event does to
 * the gating state. Times are milliseconds on one clock. Every final the gate looks at is kept
 * with its fate, and every attempt with its start, its stamp and the turns it was shown.
 */
module CueGate {
  import opened Prelude

  const ATTEMPT_INTERVAL_MS: int := 10_000
  const MIN_INTERVAL_MS: int := 1_500
  const CONTEXT_SEGMENTS: nat := 8

  /** One cue call: when it started, the endMs it is stamped with, the turns in its window. */
  datatype Attempt = Attempt(at: int, stamp: int, window: seq<string>)

  /** The call in flight, and whether it has shown its cue yet. */
  datatype Call = Call(startedAt: int, shown: bool)

  /**
   * What became of a turn: seen by attempt k, waiting for the floor timer or for the call in
   * flight, or passed over at time `at`: for the cue shown last, by the min interval; for the run
   * change in force, by a translation or song run; or because the session had closed.
   */
  datatype Fate =
    | Covered(k: nat) | Held | Missed
    | TooSoon(at: int, cue: int) | RunGated(at: int, change: int) | Ended(at: int)

  datatype Turn = Turn(text: string, endMs: int, fate: Fate)

  /** A translation or song run starting or ending, and whether any is live from then on. */
  datatype Change = Change(at: int, live: bool)

  /** What has been shown, what runs have started and ended, and when the session closed. */
  datatype Past = Past(shows: seq<int>, changes: seq<Change>, closedAt: Option<int>)
  {
    function Soon(now: int): Fate { TooSoon(now, |shows| - 1) }

    function Gated(now: int): Fate { RunGated(now, |changes| - 1) }
  }

  datatype State = State(
    recent: seq<string>, lastCue: Option<int>, lastAttempt: Option<int>, call: Option<Call>,
    missed: Option<int>, held: Option<int>, timer: Option<int>,
    translation: bool, music: bool, closed: bool,
    turns: seq<Turn>, attempts: seq<Attempt>, seen: seq<nat>, past: Past)

  const INIT := State([], None, None, None, None, None, None, false, false, false, [], [], [], Past([], [], None))

  // ---- What each event does ------------------------------------------------

  /** The context window after `text` joined it (an empty final does not). */
  function Remember(recent: seq<string>, text: string): seq<string> {
    if text == "" then recent
    else if |recent| < CONTEXT_SEGMENTS then recent + [text]
    else recent[|recent| + 1 - CONTEXT_SEGMENTS..] + [text]
  }

  function Refate(turns: seq<Turn>, held: Fate, missed: Fate): (r: seq<Turn>)
    ensures |r| == |turns|
  {
    seq(|turns|, k requires 0 <= k < |turns| =>
      if turns[k].fate == Held then turns[k].(fate := held)
      else if turns[k].fate == Missed then turns[k].(fate := missed)
      else turns[k])
  }

  function Start(s: State, now: int, stamp: int): State
    requires s.call.None?
  {
    var k := |s.attempts|;
    s.(call := Some(Call(now, false)), lastAttempt := Some(now), held := None, timer := None,
       attempts := s.attempts + [Attempt(now, stamp, s.recent)], seen := s.seen + [|s.turns|],
       turns := Refate(s.turns, Covered(k), Covered(k)))
  }

  predicate TooSoonAfterCue(s: State, now: int) {
    s.lastCue.Some? && now - s.lastCue.value < MIN_INTERVAL_MS
  }

  predicate InFloor(s: State, now: int) {
    s.lastAttempt.Some? && ATTEMPT_INTERVAL_MS - (now - s.lastAttempt.value) > 0
  }

  function AddTurn(s: State, text: string, endMs: int, fate: Fate): State {
    s.(recent := Remember(s.recent, text), turns := s.turns + [Turn(text, endMs, fate)])
  }

  /** `_consider_cue`: a turn finalized. */
  function Consider(s: State, now: int, text: string, endMs: int): State {
    if s.closed then s
    else if s.translation || s.music then AddTurn(s, text, endMs, s.past.Gated(now))
    else if InFloor(s, now) then
      AddTurn(s, text, endMs, Held).(
        held := Some(endMs),
        timer := if s.timer.None? then Some(now + (ATTEMPT_INTERVAL_MS - (now - s.lastAttempt.value))) else s.timer)
    else if s.call.Some? then AddTurn(s, text, endMs, Missed).(missed := Some(endMs))
    else if TooSoonAfterCue(s, now) then AddTurn(s, text, endMs, s.past.Soon(now))
    else Start(AddTurn(s, text, endMs, Held), now, endMs)
  }

  /** `_cue_catch_up`: try again on the newest turn no call has seen, unless something holds it. */
  function CatchUp(s: State, now: int): State
    requires s.call.None?
  {
    var t := s.(missed := None);
    if s.missed.None? then s
    else if s.closed then t.(turns := Refate(s.turns, Held, Ended(now)))
    else if s.translation || s.music then t.(turns := Refate(s.turns, Held, s.past.Gated(now)))
    else if TooSoonAfterCue(s, now) then t.(turns := Refate(s.turns, Held, s.past.Soon(now)))
    else Start(t, now, s.missed.value)
  }

  /** `_cue_floor_lapsed`: the held turn goes the catch-up's way. */
  function FloorLapsed(s: State, now: int): State {
    var t := s.(timer := None, held := None);
    if s.held.None? then t
    else
      var u := t.(missed := s.held, turns := Refate(s.turns, Missed, Missed));
      if s.call.Some? then u else CatchUp(u, now)
  }

  /** The call in flight shows its cue. */
  function CueShown(s: State, now: int): State
    requires s.call.Some?
  {
    s.(lastCue := Some(now), past := s.past.(shows := s.past.shows + [now]), call := Some(s.call.value.(shown := true)))
  }

  /** The call in flight ends, however it ended. */
  function CallEnded(s: State, now: int): State {
    CatchUp(s.(call := None), now)
  }

  // ---- What every reachable state satisfies --------------------------------

  ghost predicate Spaced(times: seq<int>, gap: int) {
    forall k :: 0 < k < |times| ==> times[k] - times[k - 1] >= gap
  }

  function StartTimes(attempts: seq<Attempt>): (r: seq<int>)
    ensures |r| == |attempts|
  {
    seq(|attempts|, k requires 0 <= k < |attempts| => attempts[k].at)
  }

  /** `last` is the newest of `times`, none of which is later than `now`. */
  ghost predicate Newest(last: Option<int>, times: seq<int>, now: int) {
    && (last.None? <==> times == [])
    && (last.Some? ==> last.value == times[|times| - 1] && last.value <= now)
  }

  ghost predicate AnyFate(turns: seq<Turn>, fate: Fate) {
    exists k :: 0 <= k < |turns| && turns[k].fate == fate
  }

  /** The window holds the last turns with text: what a context of `n` turns would be shown. */
  function Window(turns: seq<Turn>): seq<string> {
    if turns == [] then [] else Remember(Window(turns[..|turns| - 1]), turns[|turns| - 1].text)
  }

  /** A turn's fate agrees with the attempts: covered by the first attempt that started after it. */
  ghost predicate FateOk(turns: seq<Turn>, seen: seq<nat>, k: nat)
    requires k < |turns|
  {
    var fate := turns[k].fate;
    && (fate.Covered? ==> fate.k < |seen| && k < seen[fate.k] && (fate.k > 0 ==> seen[fate.k - 1] <= k))
    && (fate.Held? || fate.Missed? ==> seen == [] || seen[|seen| - 1] <= k)
  }

  /** An attempt's window is that of the turns before it. */
  ghost predicate AttemptOk(turns: seq<Turn>, attempts: seq<Attempt>, seen: seq<nat>, k: nat)
    requires k < |attempts| == |seen|
  {
    seen[k] <= |turns| && attempts[k].window == Window(turns[..seen[k]])
  }

  /** Timing: one call in flight, starts a floor apart, cues a min interval apart. */
  ghost predicate Timed(s: State, now: int) {
    && Spaced(StartTimes(s.attempts), ATTEMPT_INTERVAL_MS) && Newest(s.lastAttempt, StartTimes(s.attempts), now)
    && Spaced(s.past.shows, MIN_INTERVAL_MS) && Newest(s.lastCue, s.past.shows, now)
    && (s.call.Some? ==> s.lastAttempt == Some(s.call.value.startedAt))
    && (s.call.Some? && !s.call.value.shown ==> !TooSoonAfterCue(s, s.call.value.startedAt))
    && (s.held.Some? <==> s.timer.Some?)
    && (s.timer.Some? ==> s.lastAttempt.Some? && s.timer.value == s.lastAttempt.value + ATTEMPT_INTERVAL_MS)
    && (s.missed.Some? ==> s.call.Some? && !InFloor(s, now))
  }

  /** A turn waits for the timer, or for the call in flight, exactly while `held` or `missed` says so. */
  ghost predicate Waits(s: State) {
    (s.held.Some? <==> AnyFate(s.turns, Held)) && (s.missed.Some? <==> AnyFate(s.turns, Missed))
  }

  /** Every window is the turns it should be, and every turn's fate agrees with the attempts. */
  ghost predicate Recorded(s: State) {
    && |s.seen| == |s.attempts| && s.recent == Window(s.turns)
    && (forall k :: 0 <= k < |s.turns| ==> FateOk(s.turns, s.seen, k))
    && (forall k :: 0 <= k < |s.attempts| ==> AttemptOk(s.turns, s.attempts, s.seen, k))
  }

  ghost predicate Inv(s: State, now: int) {
    Timed(s, now) && Waits(s) && Recorded(s)
  }

  // ---- Runs ----------------------------------------------------------------

  datatype Event =
    | Final(text: string, endMs: int) | FloorTimer | Show | End
    | Runs(translation: bool, music: bool) | Close

  /** The timer fires no earlier than armed; a cue is shown by the call in flight, once, outside runs. */
  predicate Enabled(s: State, e: Event, now: int) {
    match e
    case FloorTimer => s.timer.Some? && now >= s.timer.value
    case Show => s.call.Some? && !s.call.value.shown && !s.translation && !s.music
    case End => s.call.Some?
    case _ => true
  }

  function Step(s: State, e: Event, now: int): State
    requires Enabled(s, e, now)
  {
    match e
    case Final(text, endMs) => Consider(s, now, text, endMs)
    case FloorTimer => FloorLapsed(s, now)
    case Show => CueShown(s, now)
    case End => CallEnded(s, now)
    case Runs(translation, music) =>
      s.(translation := translation, music := music,
         past := s.past.(changes := s.past.changes + [Change(now, translation || music)]))
    case Close => s.(closed := true, past := s.past.(closedAt := if s.closed then s.past.closedAt else Some(now)))
  }

  /** `run` is an interleaving the session can see: times never go back, events are enabled. */
  ghost predicate IsRun(s: State, now: int, run: seq<(Event, int)>, end: State)
    decreases |run|
  {
    if |run| == 0 then end == s
    else run[0].1 >= now && Enabled(s, run[0].0, run[0].1)
         && IsRun(Step(s, run[0].0, run[0].1), run[0].1, run[1..], end)
  }
}
