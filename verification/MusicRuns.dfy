/** Song runs stay well bracketed, and a locked track is replaced only on two sightings in a row. */
module MusicRuns {
  import opened Prelude
  import opened Music

  // ---- Each step -----------------------------------------------------------

  lemma {:induction false} HeardPrefix(frames: seq<Frame>, frame: Frame, n: nat)
    requires n <= |frames|
    ensures HeardAfter(frames + [frame], n) == HeardAfter(frames, n)
  {
    if n > 0 { HeardPrefix(frames, frame, n - 1); }
  }

  lemma {:induction false} EmitFollows(frames: seq<Frame>, frame: Frame)
    requires Bracketed(frames) && Follows(HeardAfter(frames, |frames|), frame)
    ensures Bracketed(frames + [frame])
    ensures HeardAfter(frames + [frame], |frames + [frame]|) == Hear(HeardAfter(frames, |frames|), frame)
  {
    var t := frames + [frame];
    forall k | 0 <= k < |t| ensures FollowsAt(t, k) {
      HeardPrefix(frames, frame, k);
      if k < |frames| { assert FollowsAt(frames, k); }
    }
    HeardPrefix(frames, frame, |frames|);
  }

  lemma {:induction false} EndKeeps(s: State)
    requires Inv(s)
    ensures Inv(End(s)) && !End(s).active && End(s).scan == s.scan
    ensures End(s).lastMatch.None? <==> s.active || s.lastMatch.None?
  {
    if s.active { EmitFollows(s.frames, SongDone(s.runId.value, false)); }
  }

  lemma {:induction false} HoldCheckKeeps(s: State, now: int, hold: nat)
    requires Inv(s)
    ensures Inv(HoldCheck(s, now, hold))
  {
    EndKeeps(s);
  }

  lemma {:induction false} ReanchorKeeps(s: State)
    requires Inv(s) && s.active
    ensures Inv(Reanchor(s))
  {
    EmitFollows(s.frames, Sync(s.runId.value));
  }

  lemma {:induction false} IdentifiedKeeps(s: State, match_: Option<nat>, now: int, hold: nat)
    requires Inv(s) && s.scan.Identifying?
    ensures Inv(Identified(s, match_, now, hold))
  {
    var t := s.(scan := Idle);
    if match_.None? {
      HoldCheckKeeps(t, now, hold);
    } else {
      var key := match_.value;
      var u := t.(sightings := s.sightings + [Sighting(key, s.runId, now)]);
      if s.active && s.trackKey == Some(key) {
        if !s.lyricsPending { ReanchorKeeps(u.(lastMatch := Some(now), pendingKey := None)); }
      } else if s.active && s.pendingKey != Some(key) {
        HoldCheckKeeps(u.(pendingKey := Some(key)), now, hold);
      } else {
        EndKeeps(u.(lastMatch := Some(now), pendingKey := None));
      }
    }
  }

  lemma {:induction false} OpenedKeeps(s: State, lookup: Lookup, endKnown: bool)
    requires Inv(s) && s.scan.Fetching?
    ensures Inv(Opened(s, s.scan.key, lookup, endKnown))
  {
    EmitFollows(s.frames, Song(s.nextId));
  }

  lemma {:induction false} RetriedKeeps(s: State, lookup: Lookup, endKnown: bool)
    requires Inv(s) && s.scan.Retrying?
    ensures Inv(Retried(s, s.scan.run, lookup, endKnown))
  {
    var t := s.(scan := Idle);
    if s.active && lookup.Failed? {
      ReanchorKeeps(t);
    } else if s.active && lookup.NoLines? {
      ReanchorKeeps(t.(lyricsPending := false));
    } else if s.active {
      EmitFollows(s.frames, Song(s.scan.run));
    }
  }

  lemma {:induction false} StepKeeps(s: State, e: Event, hold: nat)
    requires Inv(s) && Enabled(s, e)
    ensures Inv(Step(s, e, hold))
  {
    match e
    case Scan_ =>
    case Recognized(match_, now) => IdentifiedKeeps(s, match_, now, hold);
    case DoneSent =>
    case LyricsFound(lookup, endKnown) =>
      if s.scan.Fetching? { OpenedKeeps(s, lookup, endKnown); } else { RetriedKeeps(s, lookup, endKnown); }
    case SongEnds => EndKeeps(s.(endTask := false));
    case SocketResumed => if s.active { EmitFollows(s.frames, Song(s.runId.value)); }
    case ResendAsides => if !s.active && s.lastRunId.Some? { EmitFollows(s.frames, SongDone(s.lastRunId.value, true)); }
  }

  lemma {:induction false} RunsKeep(s: State, run: seq<Event>, hold: nat, end: State)
    requires Inv(s) && IsRun(s, run, hold, end)
    ensures Inv(end)
    decreases |run|
  {
    if |run| > 0 {
      StepKeeps(s, run[0], hold);
      RunsKeep(Step(s, run[0], hold), run[1..], hold, end);
    }
  }

  // ---- What it gives -------------------------------------------------------

  /**
   * Over every interleaving the frames are well bracketed: each run opens with a song under a fresh
   * id, has songs and syncs only while it is live, and one done ends it; a done said again only
   * names the newest run, and only while none is live.
   */
  lemma FramesBracketed(run: seq<Event>, hold: nat, s: State, k: nat)
    requires IsRun(SILENT, run, hold, s) && k < |s.frames|
    ensures Follows(HeardAfter(s.frames, k), s.frames[k])
    ensures HeardAfter(s.frames, |s.frames|) == Heard(s.runId, s.lastRunId)
  {
    RunsKeep(SILENT, run, hold, s);
    assert FollowsAt(s.frames, k);
  }

  /** Ids never come back: the newest run's is the greatest, and a live run is the newest. */
  lemma {:induction false} NewestIsGreatest(frames: seq<Frame>, n: nat, k: nat)
    requires Bracketed(frames) && k < n <= |frames|
    ensures HeardAfter(frames, n).live.Some? ==> HeardAfter(frames, n).newest == HeardAfter(frames, n).live
    ensures frames[k].Song? ==> HeardAfter(frames, n).newest.Some? && frames[k].id <= HeardAfter(frames, n).newest.value
    decreases n
  {
    LiveIsNewest(frames, n);
    LiveIsNewest(frames, n - 1);
    assert FollowsAt(frames, n - 1);
    if k < n - 1 { NewestIsGreatest(frames, n - 1, k); }
  }

  lemma {:induction false} LiveIsNewest(frames: seq<Frame>, n: nat)
    requires Bracketed(frames) && n <= |frames|
    ensures HeardAfter(frames, n).live.Some? ==> HeardAfter(frames, n).newest == HeardAfter(frames, n).live
  {
    if n > 0 {
      assert FollowsAt(frames, n - 1);
      LiveIsNewest(frames, n - 1);
    }
  }

  /** No run has two ends. */
  lemma {:induction false} OneDonePerRun(frames: seq<Frame>, i: nat, j: nat)
    requires Bracketed(frames) && i < j < |frames| && frames[i].SongDone? && frames[j].SongDone?
    requires !frames[i].resent && !frames[j].resent
    ensures frames[i].id != frames[j].id
  {
    NotLiveAgain(frames, i, j);
    assert FollowsAt(frames, i) && FollowsAt(frames, j);
  }

  /** Once ended, a run is never live again. */
  lemma {:induction false} NotLiveAgain(frames: seq<Frame>, i: nat, j: nat)
    requires Bracketed(frames) && i < j <= |frames| && frames[i].SongDone? && !frames[i].resent
    ensures HeardAfter(frames, j).live != Some(frames[i].id)
    ensures HeardAfter(frames, j).newest.Some? && HeardAfter(frames, j).newest.value >= frames[i].id
    decreases j
  {
    assert FollowsAt(frames, j - 1);
    LiveIsNewest(frames, j - 1);
    if i < j - 1 { NotLiveAgain(frames, i, j - 1); }
  }

  /**
   * A scan that replaces the locked track saw the newcomer for the second time in a row: the track
   * recognized just before was the newcomer too, under the same run, whatever was missed between.
   */
  lemma ReplacedOnSecondSighting(run: seq<Event>, hold: nat, s: State, key: nat, now: int)
    requires IsRun(SILENT, run, hold, s) && s.scan.Identifying? && s.active
    ensures Identified(s, Some(key), now, hold).scan == Closing(key) <==>
              s.trackKey != Some(key) && s.pendingKey == Some(key)
    ensures Identified(s, Some(key), now, hold).scan == Closing(key) ==>
              && |s.sightings| > 0 && s.sightings[|s.sightings| - 1].key == key
              && s.sightings[|s.sightings| - 1].run == s.runId
    ensures !Identified(s, Some(key), now, hold).scan.Fetching?
  {
    RunsKeep(SILENT, run, hold, s);
  }

  // ---- The hold ------------------------------------------------------------

  /** Scans that recognize nothing, at the given times. */
  function Misses(times: seq<int>): seq<Event> {
    if |times| == 0 then [] else [Scan_, Recognized(None, times[0])] + Misses(times[1..])
  }

  lemma {:induction false} MissesLeaveAlone(s: State, times: seq<int>, hold: nat, end: State)
    requires s.active && s.lastMatch.None? && s.scan.Idle? && IsRun(s, Misses(times), hold, end)
    ensures end == s
    decreases |times|
  {
    if |times| > 0 {
      var events := Misses(times);
      var mid := Step(Step(s, events[0], hold), events[1], hold);
      assert mid == s;
      assert events[1..][1..] == Misses(times[1..]);
      MissesLeaveAlone(s, times[1..], hold, end);
    }
  }

  lemma {:induction false} OneMissEnds(s: State, times: seq<int>, hold: nat) returns (end: State)
    requires Inv(s) && s.active && s.scan.Idle? && s.lastMatch.Some?
    requires |times| == 1 && times[0] - s.lastMatch.value >= hold
    ensures IsRun(s, Misses(times), hold, end) && !end.active
  {
    var events := Misses(times);
    assert |Misses(times[1..])| == 0 && |events| == 2;
    var a := Step(s, events[0], hold);
    end := Step(a, events[1], hold);
    assert IsRun(end, events[1..][1..], hold, end) && IsRun(a, events[1..], hold, end);
  }

  /** Some run of scans that recognize nothing ends the run. */
  ghost predicate SilenceEnds(s: State, hold: nat) {
    exists times: seq<int>, end: State :: IsRun(s, Misses(times), hold, end) && !end.active
  }

  /**
   * Silence ends a run exactly when the run has a time of last match to count from: with none, no
   * number of scans without a match ever ends it, however long they go on.
   */
  lemma {:induction false} SilenceEndsIff(s: State, hold: nat)
    requires Inv(s) && s.active && s.scan.Idle?
    ensures SilenceEnds(s, hold) <==> s.lastMatch.Some?
  {
    if s.lastMatch.Some? {
      var times := [s.lastMatch.value + hold];
      var end := OneMissEnds(s, times, hold);
      assert SilenceEnds(s, hold);
    } else {
      forall times: seq<int>, end: State | IsRun(s, Misses(times), hold, end) ensures end.active {
        MissesLeaveAlone(s, times, hold, end);
      }
    }
  }

  /**
   * A run that replaced another opens without a time of last match, so silence cannot end it until it
   * is matched again; one that replaced none can be ended by silence.
   */
  lemma {:induction false} ReplacementLosesClock(
    s: State, key: nat, now: int, hold: nat, lookup: Lookup, endKnown: bool) returns (u: State)
    requires Inv(s) && s.scan.Identifying? && s.trackKey != Some(key) && (s.active ==> s.pendingKey == Some(key))
    ensures var t := Identified(s, Some(key), now, hold);
            u == Opened(if t.scan.Closing? then t.(scan := Fetching(key)) else t, key, lookup, endKnown)
    ensures u.active && u.trackKey == Some(key) && u.lastMatch == if s.active then None else Some(now)
    ensures SilenceEnds(u, hold) <==> !s.active
  {
    var t := Identified(s, Some(key), now, hold);
    IdentifiedKeeps(s, Some(key), now, hold);
    var f := if t.scan.Closing? then t.(scan := Fetching(key)) else t;
    assert f.scan == Fetching(key) && !f.active;
    OpenedKeeps(f, lookup, endKnown);
    u := Opened(f, key, lookup, endKnown);
    SilenceEndsIff(u, hold);
  }

  // ---- A real run without its clock ----------------------------------------

  lemma {:induction false} RunThen(s: State, run: seq<Event>, hold: nat, mid: State, e: Event)
    requires IsRun(s, run, hold, mid) && Enabled(mid, e)
    ensures IsRun(s, run + [e], hold, Step(mid, e, hold))
    decreases |run|
  {
    if |run| > 0 {
      RunThen(Step(s, run[0], hold), run[1..], hold, mid, e);
      assert (run + [e])[1..] == run[1..] + [e];
    } else {
      assert (run + [e])[1..] == run;
    }
  }

  /** One more event after a run from silence. */
  lemma Then(run: seq<Event>, hold: nat, s: State, e: Event) returns (longer: seq<Event>, t: State)
    requires IsRun(SILENT, run, hold, s) && Enabled(s, e)
    ensures IsRun(SILENT, longer, hold, t) && t == Step(s, e, hold)
  {
    RunThen(SILENT, run, hold, s, e);
    longer, t := run + [e], Step(s, e, hold);
  }

  /** A track opens a run. */
  lemma FirstTrack(hold: nat) returns (run: seq<Event>, s: State)
    ensures IsRun(SILENT, run, hold, s) && s.active && s.scan.Idle? && s.trackKey == Some(1)
    ensures s.lastMatch == Some(0) && s.pendingKey.None?
  {
    run, s := [], SILENT;
    run, s := Then(run, hold, s, Scan_);
    run, s := Then(run, hold, s, Recognized(Some(1), 0));
    run, s := Then(run, hold, s, LyricsFound(Lines, false));
  }

  /** Another, sighted twice in a row, replaces it. */
  lemma SecondTrack(hold: nat) returns (run: seq<Event>, s: State)
    requires hold > 0
    ensures IsRun(SILENT, run, hold, s) && s.scan == Closing(2) && !s.active && s.lastMatch.None?
  {
    run, s := FirstTrack(hold);
    run, s := Then(run, hold, s, Scan_);
    run, s := Then(run, hold, s, Recognized(Some(2), 0));
    run, s := Then(run, hold, s, Scan_);
    run, s := Then(run, hold, s, Recognized(Some(2), 0));
  }

  /** Such a run comes about: a song is live that no silence will end until it is matched again. */
  lemma ClocklessRun(hold: nat)
    requires hold > 0
    ensures exists run, s :: IsRun(SILENT, run, hold, s) && s.active && s.scan.Idle? && !SilenceEnds(s, hold)
  {
    var run, s := SecondTrack(hold);
    run, s := Then(run, hold, s, DoneSent);
    run, s := Then(run, hold, s, LyricsFound(Lines, false));
    InitInv();
    RunsKeep(SILENT, run, hold, s);
    SilenceEndsIff(s, hold);
  }

  lemma InitInv()
    ensures Inv(SILENT)
  {}
}
