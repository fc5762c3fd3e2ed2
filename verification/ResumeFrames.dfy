/**
 * What a resumed socket receives (api/src/api/session.py): frames go to the bound socket or into
 * the detached buffer, finals, translations and cues are also remembered, and a rebind replays the
 * remembered ones the old socket may have swallowed, then drains the buffer until it has caught up.
 */
module ResumeFrames {
  import opened Prelude

  const RECENT_MAX: nat := 500
  const DETACHED_BUFFER_MAX: nat := 500
  const RECENT_WINDOW_MS: int := 60_000

  /** A server frame; finals, translations and cues are the ones worth remembering. */
  datatype Frame = Frame(body: string, remembered: bool)

  datatype Stamped = Stamped(at: int, frame: Frame)

  /** Where produced frames go: the newest socket, the buffer while detached, the buffer while catching up. */
  datatype Sink = Socket | Detached(since: int) | CatchingUp

  /**
   * `log` is every frame produced, `lost` the places in it of those pushed out of a full buffer,
   * `wire` what the newest socket was sent, `pending` what the rebind under way still has in hand;
   * `resume` is the rebind that bound the newest socket.
   */
  datatype State = State(
    log: seq<Stamped>, lost: set<int>, recent: seq<Stamped>, buffer: seq<Frame>, sink: Sink, wire: seq<Frame>,
    pending: seq<Frame>, resume: Option<Resumption>)
  {
    /** Where the buffered frames begin in the log. */
    function Held(): int { |log| - |buffer| }
  }

  /** When the socket before was given up, whether its recent frames are replayed, and the log by then. */
  datatype Resumption = Resumption(givenUp: int, replayRecent: bool, logged: nat)

  const INIT := State([], {}, [], [], Socket, [], [], None)

  function LastN<T>(s: seq<T>, n: nat): seq<T> {
    if |s| <= n then s else s[|s| - n..]
  }

  /** The frames sent in [lo, hi). */
  function Select(s: seq<Stamped>, lo: int, hi: int): seq<Frame> {
    if |s| == 0 then [] else
      Select(s[..|s| - 1], lo, hi) + (if lo <= s[|s| - 1].at < hi then [s[|s| - 1].frame] else [])
  }

  // ---- What each step does -------------------------------------------------

  /** A frame produced at `now`: remembered before it is sent, then to the socket or the buffer. */
  function Produce(s: State, now: int, frame: Frame): State {
    var t := s.(log := s.log + [Stamped(now, frame)],
                recent := if frame.remembered then LastN(s.recent + [Stamped(now, frame)], RECENT_MAX) else s.recent);
    if s.sink.Socket? then t.(wire := s.wire + [frame])
    else t.(buffer := LastN(s.buffer + [frame], DETACHED_BUFFER_MAX),
            lost := if |s.buffer| >= DETACHED_BUFFER_MAX then s.lost + {s.Held()} else s.lost)
  }

  function Detach(s: State, now: int): State { s.(sink := Detached(now)) }

  /** `rebind`, up to its first send: a detached session was given up then, a displaced socket is now. */
  function Rebind(s: State, now: int, replayRecent: bool): State {
    var givenUp := if s.sink.Detached? then s.sink.since else now;
    var replayed := if replayRecent then Select(s.recent, givenUp - RECENT_WINDOW_MS, givenUp) else [];
    s.(sink := CatchingUp, wire := [], pending := replayed,
       resume := Some(Resumption(givenUp, replayRecent, |s.log|)))
  }

  /** One send of the rebind completing; then the next batch, or the socket is bound. */
  function SendOne(s: State): State
    requires s.pending != []
  {
    s.(wire := s.wire + [s.pending[0]], pending := s.pending[1..])
  }

  function NextBatch(s: State): State {
    if s.buffer != [] then s.(pending := s.buffer, buffer := []) else s.(sink := Socket)
  }

  datatype Event = Frame_(frame: Frame) | Drop | Resume(replayRecent: bool) | Sent | Batch

  predicate Enabled(s: State, e: Event) {
    match e
    case Frame_(_) => true
    case Drop => s.sink.Socket?
    case Resume(_) => !s.sink.CatchingUp?
    case Sent => s.sink.CatchingUp? && s.pending != []
    case Batch => s.sink.CatchingUp? && s.pending == []
  }

  function Step(s: State, e: Event, now: int): State
    requires Enabled(s, e)
  {
    match e
    case Frame_(frame) => Produce(s, now, frame)
    case Drop => Detach(s, now)
    case Resume(replayRecent) => Rebind(s, now, replayRecent)
    case Sent => SendOne(s)
    case Batch => NextBatch(s)
  }

  /** A run with a strictly increasing clock. */
  ghost predicate IsRun(s: State, now: int, run: seq<(Event, int)>, end: State)
    decreases |run|
  {
    if |run| == 0 then end == s
    else
      var (e, at) := run[0];
      now < at && Enabled(s, e) && IsRun(Step(s, e, at), at, run[1..], end)
  }

  // ---- What every reachable state satisfies --------------------------------

  function Remembered(log: seq<Stamped>): seq<Stamped> {
    if |log| == 0 then [] else
      Remembered(log[..|log| - 1]) + (if log[|log| - 1].frame.remembered then [log[|log| - 1]] else [])
  }

  /** Everything produced from `since` on. */
  function Since(log: seq<Stamped>, since: int): seq<Frame> {
    if |log| == 0 then [] else
      Since(log[..|log| - 1], since) + (if since <= log[|log| - 1].at then [log[|log| - 1].frame] else [])
  }

  /** Of everything produced from `since` on, the frames never pushed out of the buffer. */
  function Kept(log: seq<Stamped>, since: int, lost: set<int>): seq<Frame> {
    if |log| == 0 then [] else
      var n := |log| - 1;
      Kept(log[..n], since, lost) + (if since <= log[n].at && n !in lost then [log[n].frame] else [])
  }

  /** And those that were. */
  function Missed(log: seq<Stamped>, since: int, lost: set<int>): seq<Frame> {
    if |log| == 0 then [] else
      var n := |log| - 1;
      Missed(log[..n], since, lost) + (if since <= log[n].at && n in lost then [log[n].frame] else [])
  }

  function Frames(s: seq<Stamped>): seq<Frame> { seq(|s|, k requires 0 <= k < |s| => s[k].frame) }

  ghost predicate Ascending(log: seq<Stamped>) {
    forall j, k :: 0 <= j < k < |log| ==> log[j].at < log[k].at
  }

  ghost predicate ClockBelow(log: seq<Stamped>, now: int) {
    forall k :: 0 <= k < |log| ==> log[k].at <= now
  }

  /** The frames a resumption replays: those remembered, in the window before the socket was given up. */
  function Replayed(log: seq<Stamped>, r: Resumption): seq<Frame>
    requires r.logged <= |log|
  {
    if r.replayRecent
    then Select(LastN(Remembered(log[..r.logged]), RECENT_MAX), r.givenUp - RECENT_WINDOW_MS, r.givenUp)
    else []
  }

  /** The newest socket has been, or is about to be, sent what it should: the replay, then all since but the lost. */
  ghost predicate Delivers(s: State, r: Resumption, now: int) {
    && r.givenUp <= now && r.logged <= |s.log|
    && (forall k :: r.logged <= k < |s.log| ==> r.givenUp < s.log[k].at)
    && |s.buffer| <= |s.log| && BufferedFrom(s, r.givenUp)
    && s.wire + s.pending == Replayed(s.log, r) + Kept(s.log[..s.Held()], r.givenUp, s.lost)
  }

  /** The buffer is the end of the log, and everything pushed out came before it. */
  ghost predicate BufferOk(s: State) {
    && |s.buffer| <= DETACHED_BUFFER_MAX && |s.buffer| <= |s.log|
    && s.buffer == Frames(s.log[s.Held()..])
    && (forall k :: k in s.lost ==> k < s.Held())
  }

  ghost predicate BufferedFrom(s: State, since: int)
    requires |s.buffer| <= |s.log|
  {
    forall k :: s.Held() <= k < |s.log| ==> since <= s.log[k].at
  }

  ghost predicate Inv(s: State, now: int) {
    && ClockBelow(s.log, now) && Ascending(s.log)
    && s.recent == LastN(Remembered(s.log), RECENT_MAX)
    && BufferOk(s) && SinkOk(s, now)
    && (!s.sink.Detached? && s.resume.Some? ==> Delivers(s, s.resume.value, now))
  }

  /** While detached everything since is buffered, but the lost. */
  ghost predicate SinkOk(s: State, now: int)
    requires |s.buffer| <= |s.log|
  {
    && (s.sink.Socket? ==> s.pending == [] && s.buffer == [])
    && (s.sink.Detached? ==>
      && s.pending == [] && s.sink.since <= now && BufferedFrom(s, s.sink.since)
      && Kept(s.log[..s.Held()], s.sink.since, s.lost) == [])
    && (s.sink.CatchingUp? ==> s.resume.Some?)
  }
}
