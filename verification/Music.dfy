/**
 * Song runs (api/src/api/session.py): one scan loop recognizes the track, opens, re-anchors, replaces
 * and ends runs, and a timer ends a run where its song ends. Recognitions, lyric lookups and the
 * clock are inputs; every await is a step boundary.
 */
module Music {
  import opened Prelude

  /** `resent` marks a done repeated to a resumed socket. */
  datatype Frame = Song(id: nat) | Sync(id: nat) | SongDone(id: nat, resent: bool)

  /** Where the scan loop waits. */
  datatype Scan = Idle | Identifying | Closing(key: nat) | Fetching(key: nat) | Retrying(run: nat)

  /** `sightings` is every track recognized so far, with the run then live and the time. */
  datatype Sighting = Sighting(key: nat, run: Option<nat>, at: int)

  datatype State = State(
    active: bool, runId: Option<nat>, lastRunId: Option<nat>, trackKey: Option<nat>, lastMatch: Option<int>,
    pendingKey: Option<nat>, lyricsPending: bool, endKnown: bool, endTask: bool, nextId: nat, scan: Scan,
    frames: seq<Frame>, sightings: seq<Sighting>)

  const SILENT := State(false, None, None, None, None, None, false, false, false, 0, Idle, [], [])

  datatype Lookup = Failed | NoLines | Lines

  // ---- What each step does -------------------------------------------------

  function Emit(s: State, frame: Frame): State { s.(frames := s.frames + [frame]) }

  /** `_end_music_run`, up to the send of its done. */
  function End(s: State): State {
    if !s.active then s
    else
      var t := s.(active := false, runId := None, trackKey := None, lastMatch := None, pendingKey := None,
                  lyricsPending := false, endKnown := false, endTask := false);
      if s.runId.Some? then Emit(t, SongDone(s.runId.value, false)) else t
  }

  /** A song quiet for the hold is over. */
  function HoldCheck(s: State, now: int, hold: nat): State {
    if s.active && s.lastMatch.Some? && now - s.lastMatch.value >= hold then End(s) else s
  }

  /** `_anchor_song` and the sync that carries it. */
  function Reanchor(s: State): State
    requires s.runId.Some?
  {
    Emit(s.(endTask := s.endKnown), Sync(s.runId.value))
  }

  /** The recognizer's answer: nothing, or a track. */
  function Identified(s: State, match_: Option<nat>, now: int, hold: nat): State {
    var t := s.(scan := Idle);
    if match_.None? then HoldCheck(t, now, hold)
    else
      var key := match_.value;
      var u := t.(sightings := s.sightings + [Sighting(key, s.runId, now)]);
      if s.active && s.trackKey == Some(key) then
        var v := u.(lastMatch := Some(now), pendingKey := None);
        if s.runId.None? then v else if s.lyricsPending then v.(scan := Retrying(s.runId.value)) else Reanchor(v)
      else if s.active && s.pendingKey != Some(key) then HoldCheck(u.(pendingKey := Some(key)), now, hold)
      else
        var v := u.(lastMatch := Some(now), pendingKey := None);
        if s.active then End(v).(scan := Closing(key)) else v.(scan := Fetching(key))
  }

  /** The rest of `_open_music_run`, its lyrics looked up. */
  function Opened(s: State, key: nat, lookup: Lookup, endKnown: bool): State {
    Emit(s.(scan := Idle, lyricsPending := lookup.Failed?, runId := Some(s.nextId), lastRunId := Some(s.nextId),
            nextId := s.nextId + 1, trackKey := Some(key), active := true, endKnown := endKnown, endTask := endKnown),
         Song(s.nextId))
  }

  /** The rest of `_send_song_sync` after `_retry_song_lyrics` looked the lyrics up again for `run`. */
  function Retried(s: State, run: nat, lookup: Lookup, endKnown: bool): State {
    var t := s.(scan := Idle);
    if lookup.Failed? then (if s.runId.None? then t else Reanchor(t))
    else if s.runId != Some(run) then t
    else if lookup.NoLines? then Reanchor(t.(lyricsPending := false))
    else Emit(t.(lyricsPending := false, endKnown := endKnown, endTask := endKnown), Song(run))
  }

  datatype Event =
    | Scan_ | Recognized(match_: Option<nat>, now: int) | DoneSent | LyricsFound(lookup: Lookup, endKnown: bool)
    | SongEnds | SocketResumed | ResendAsides

  predicate Enabled(s: State, e: Event) {
    match e
    case Scan_ => s.scan.Idle?
    case Recognized(_, _) => s.scan.Identifying?
    case DoneSent => s.scan.Closing?
    case LyricsFound(_, _) => s.scan.Fetching? || s.scan.Retrying?
    case SongEnds => s.endTask
    case SocketResumed => true
    case ResendAsides => true
  }

  function Step(s: State, e: Event, hold: nat): State
    requires Enabled(s, e)
  {
    match e
    case Scan_ => s.(scan := Identifying)
    case Recognized(match_, now) => Identified(s, match_, now, hold)
    case DoneSent => s.(scan := Fetching(s.scan.key))
    case LyricsFound(lookup, endKnown) =>
      if s.scan.Fetching? then Opened(s, s.scan.key, lookup, endKnown) else Retried(s, s.scan.run, lookup, endKnown)
    case SongEnds => End(s.(endTask := false))
    case SocketResumed => if s.active && s.runId.Some? then Emit(s, Song(s.runId.value)) else s
    case ResendAsides =>
      if !s.active && s.lastRunId.Some? then Emit(s, SongDone(s.lastRunId.value, true)) else s
  }

  ghost predicate IsRun(s: State, run: seq<Event>, hold: nat, end: State)
    decreases |run|
  {
    if |run| == 0 then end == s
    else Enabled(s, run[0]) && IsRun(Step(s, run[0], hold), run[1..], hold, end)
  }

  // ---- What every frame sequence satisfies ---------------------------------

  /** The run a client following the frames takes to be live, and the newest it has seen. */
  datatype Heard = Heard(live: Option<nat>, newest: Option<nat>)

  function Hear(heard: Heard, frame: Frame): Heard {
    match frame
    case Song(id) => Heard(Some(id), Some(id))
    case Sync(_) => heard
    case SongDone(_, _) => heard.(live := None)
  }

  /** A song opens a run under an id never used or repeats the live one; a sync and a run's done are the live run's. */
  predicate Follows(heard: Heard, frame: Frame) {
    match frame
    case Song(id) => heard.live == Some(id) || (heard.live.None? && (heard.newest.Some? ==> heard.newest.value < id))
    case Sync(id) => heard.live == Some(id)
    case SongDone(id, resent) => if resent then heard.live.None? && heard.newest == Some(id) else heard.live == Some(id)
  }

  /** What the client has heard after the first n frames. */
  function HeardAfter(frames: seq<Frame>, n: nat): Heard
    requires n <= |frames|
  {
    if n == 0 then Heard(None, None) else Hear(HeardAfter(frames, n - 1), frames[n - 1])
  }

  predicate FollowsAt(frames: seq<Frame>, k: nat)
    requires k < |frames|
  {
    Follows(HeardAfter(frames, k), frames[k])
  }

  ghost predicate Bracketed(frames: seq<Frame>) {
    forall k {:trigger FollowsAt(frames, k)} :: 0 <= k < |frames| ==> FollowsAt(frames, k)
  }

  ghost predicate Inv(s: State) {
    && Bracketed(s.frames) && HeardAfter(s.frames, |s.frames|) == Heard(s.runId, s.lastRunId)
    && (s.active <==> s.runId.Some?) && (s.active <==> s.trackKey.Some?)
    && (s.runId.Some? ==> s.lastRunId == s.runId) && (s.lastRunId.Some? ==> s.lastRunId.value < s.nextId)
    && (s.endTask ==> s.active) && (s.endKnown ==> s.active)
    && (s.pendingKey.Some? ==> PendingOk(s))
    && (s.scan.Closing? || s.scan.Fetching? ==> !s.active)
    && (s.scan.Retrying? ==> s.runId.None? || s.runId == Some(s.scan.run))
    && (s.active && s.lyricsPending ==> s.runId.Some?)
  }

  /** A takeover candidate is the last track recognized, while the run still live was. */
  ghost predicate PendingOk(s: State)
    requires s.pendingKey.Some?
  {
    && s.active && s.trackKey != s.pendingKey
    && |s.sightings| > 0 && s.sightings[|s.sightings| - 1].key == s.pendingKey.value
    && s.sightings[|s.sightings| - 1].run == s.runId
  }
}
