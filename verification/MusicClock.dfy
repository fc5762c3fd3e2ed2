/** The clock the silence hold counts from, and every frame a song run owes its client. */
module MusicClock {
  import opened Prelude
  import opened Music
  import opened MusicRuns

  // ---- The clock -----------------------------------------------------------

  /** Sighting m is the newest of this track. */
  predicate NewestOf(sightings: seq<Sighting>, key: nat, m: nat) {
    && m < |sightings| && sightings[m].key == key
    && forall k :: m < k < |sightings| ==> sightings[k].key != key
  }

  /**
   * The live song's clock is the time its track was recognized last; it has one as soon as the track
   * has been recognized under the run.
   */
  ghost predicate ClockOk(s: State) {
    s.active && s.trackKey.Some? ==>
      && (s.lastMatch.Some? ==>
            exists m: nat :: NewestOf(s.sightings, s.trackKey.value, m) && s.sightings[m].at == s.lastMatch.value)
      && (s.lastMatch.None? ==>
            forall m :: 0 <= m < |s.sightings| && s.sightings[m].key == s.trackKey.value ==>
              s.sightings[m].run != s.runId)
  }

  /** While a run's lyrics are looked up its clock is that of the sighting that opens it, unless it replaced another. */
  ghost predicate OpeningOk(s: State) {
    && (s.scan.Fetching? || s.scan.Closing? ==>
         && |s.sightings| > 0 && s.sightings[|s.sightings| - 1].key == s.scan.key
         && (s.lastMatch.Some? ==> s.sightings[|s.sightings| - 1].at == s.lastMatch.value))
    && (forall m :: 0 <= m < |s.sightings| && s.sightings[m].run.Some? ==> s.sightings[m].run.value < s.nextId)
  }

  ghost predicate Clocked(s: State) { ClockOk(s) && OpeningOk(s) }

  lemma EndClocked(s: State)
    requires s.active ==> s.runId.Some? && s.runId.value < s.nextId
    requires !s.scan.Fetching? && !s.scan.Closing?
    requires forall m :: 0 <= m < |s.sightings| && s.sightings[m].run.Some? ==> s.sightings[m].run.value < s.nextId
    requires ClockOk(s)
    ensures Clocked(End(s))
  {}

  lemma NewSighting(sightings: seq<Sighting>, s: Sighting, key: nat, m: nat)
    requires NewestOf(sightings, key, m) && s.key != key
    ensures NewestOf(sightings + [s], key, m)
  {}

  /** A sighting of another track leaves the clock alone. */
  lemma OtherClocked(s: State, t: State, sighting: Sighting)
    requires ClockOk(s) && t.sightings == s.sightings + [sighting] && s.trackKey != Some(sighting.key)
    requires t.active == s.active && t.trackKey == s.trackKey && t.runId == s.runId && t.lastMatch == s.lastMatch
    ensures ClockOk(t)
  {
    if s.active && s.trackKey.Some? && s.lastMatch.Some? {
      var m: nat :| NewestOf(s.sightings, s.trackKey.value, m) && s.sightings[m].at == s.lastMatch.value;
      NewSighting(s.sightings, sighting, s.trackKey.value, m);
    }
  }

  /** One of its own sets it. */
  lemma OwnClocked(s: State, t: State, sighting: Sighting)
    requires t.sightings == s.sightings + [sighting] && t.trackKey == Some(sighting.key)
    requires t.lastMatch == Some(sighting.at)
    ensures ClockOk(t)
  {
    assert NewestOf(t.sightings, sighting.key, |s.sightings|);
  }

  lemma IdentifiedClocked(s: State, match_: Option<nat>, now: int, hold: nat)
    requires Inv(s) && Clocked(s) && s.scan.Identifying?
    ensures Clocked(Identified(s, match_, now, hold))
  {
    var t := s.(scan := Idle);
    if match_.None? {
      EndClocked(t);
    } else {
      var key := match_.value;
      var sighting := Sighting(key, s.runId, now);
      var u := t.(sightings := s.sightings + [sighting]);
      if s.active && s.trackKey == Some(key) {
        OwnClocked(s, Identified(s, match_, now, hold), sighting);
      } else if s.active && s.pendingKey != Some(key) {
        OtherClocked(s, u.(pendingKey := Some(key)), sighting);
        EndClocked(u.(pendingKey := Some(key)));
      }
    }
  }

  lemma OpenedClocked(s: State, lookup: Lookup, endKnown: bool)
    requires Inv(s) && Clocked(s) && s.scan.Fetching?
    ensures Clocked(Opened(s, s.scan.key, lookup, endKnown))
  {
    assert NewestOf(s.sightings, s.scan.key, |s.sightings| - 1);
  }

  /** The clock goes by the track, the run and the sightings alone. */
  lemma SameClock(s: State, t: State)
    requires Clocked(s) && t.sightings == s.sightings && t.nextId == s.nextId
    requires t.active == s.active && t.trackKey == s.trackKey && t.runId == s.runId && t.lastMatch == s.lastMatch
    requires t.scan.Fetching? || t.scan.Closing? ==> (s.scan.Fetching? || s.scan.Closing?) && t.scan.key == s.scan.key
    ensures Clocked(t)
  {}

  lemma RetriedClocked(s: State, lookup: Lookup, endKnown: bool)
    requires Inv(s) && Clocked(s) && s.scan.Retrying?
    ensures Clocked(Retried(s, s.scan.run, lookup, endKnown))
  {
    SameClock(s, Retried(s, s.scan.run, lookup, endKnown));
  }

  lemma SongEndsClocked(s: State)
    requires Inv(s) && Clocked(s) && s.endTask
    ensures Clocked(End(s.(endTask := false)))
  {
    SameClock(s, s.(endTask := false));
    EndClocked(s.(endTask := false));
  }

  lemma StepClocked(s: State, e: Event, hold: nat)
    requires Inv(s) && Clocked(s) && Enabled(s, e)
    ensures Clocked(Step(s, e, hold))
  {
    match e
    case Recognized(match_, now) => IdentifiedClocked(s, match_, now, hold);
    case LyricsFound(lookup, endKnown) =>
      if s.scan.Fetching? { OpenedClocked(s, lookup, endKnown); } else { RetriedClocked(s, lookup, endKnown); }
    case SongEnds => SongEndsClocked(s);
    case _ => SameClock(s, Step(s, e, hold));
  }

  lemma {:induction false} RunsClocked(s: State, run: seq<Event>, hold: nat, end: State)
    requires Inv(s) && Clocked(s) && IsRun(s, run, hold, end)
    ensures Inv(end) && Clocked(end)
    decreases |run|
  {
    if |run| > 0 {
      StepKeeps(s, run[0], hold);
      StepClocked(s, run[0], hold);
      RunsClocked(Step(s, run[0], hold), run[1..], hold, end);
    }
  }

  /**
   * In every run, a live song's clock is the time of the newest sighting of its track, and it has one
   * once its track has been sighted under the run: each match of the locked track winds it.
   */
  lemma ClockIsNewestSighting(run: seq<Event>, hold: nat, s: State)
    requires IsRun(SILENT, run, hold, s) && s.active
    ensures s.trackKey.Some?
    ensures s.lastMatch.Some? ==>
              exists m: nat :: NewestOf(s.sightings, s.trackKey.value, m) && s.sightings[m].at == s.lastMatch.value
    ensures forall m ::
              0 <= m < |s.sightings| && s.sightings[m].key == s.trackKey.value && s.sightings[m].run == s.runId ==>
                s.lastMatch.Some?
  {
    InitInv();
    RunsClocked(SILENT, run, hold, s);
  }

  // ---- The frames ----------------------------------------------------------

  /** The live song has not been recognized for the hold. */
  predicate Lapsed(s: State, now: int, hold: nat) {
    s.runId.Some? && s.lastMatch.Some? && now - s.lastMatch.value >= hold
  }

  /** What the client following the frames is owed when an event comes. */
  function Owed(s: State, e: Event, hold: nat): seq<Frame> {
    match e
    case Recognized(None, now) => if Lapsed(s, now, hold) then [SongDone(s.runId.value, false)] else []
    case Recognized(Some(key), now) =>
      if s.runId.None? then []
      else if s.trackKey == Some(key) then (if s.lyricsPending then [] else [Sync(s.runId.value)])
      else if s.pendingKey == Some(key) || Lapsed(s, now, hold) then [SongDone(s.runId.value, false)] else []
    case LyricsFound(lookup, _) =>
      if s.scan.Fetching? then [Song(s.nextId)]
      else if s.runId.None? then []
      else if lookup.Lines? then [Song(s.runId.value)] else [Sync(s.runId.value)]
    case SongEnds => if s.runId.Some? then [SongDone(s.runId.value, false)] else []
    case SocketResumed => if s.runId.Some? then [Song(s.runId.value)] else []
    case ResendAsides =>
      if s.runId.None? && s.lastRunId.Some? then [SongDone(s.lastRunId.value, true)] else []
    case _ => []
  }

  /** In every run, each event sends exactly what it owes: a song, a sync, a done, or nothing. */
  lemma FramesAreOwed(run: seq<Event>, hold: nat, s: State, e: Event)
    requires IsRun(SILENT, run, hold, s) && Enabled(s, e)
    ensures Step(s, e, hold).frames == s.frames + Owed(s, e, hold)
  {
    InitInv();
    RunsKeep(SILENT, run, hold, s);
    match e
    case Recognized(match_, now) => ScanSends(s, match_, now, hold);
    case LyricsFound(lookup, endKnown) => LyricsSend(s, lookup, endKnown, hold);
    case _ =>
  }

  lemma ScanSends(s: State, match_: Option<nat>, now: int, hold: nat)
    requires Inv(s) && s.scan.Identifying?
    ensures Identified(s, match_, now, hold).frames == s.frames + Owed(s, Recognized(match_, now), hold)
  {}

  lemma LyricsSend(s: State, lookup: Lookup, endKnown: bool, hold: nat)
    requires Inv(s) && Enabled(s, LyricsFound(lookup, endKnown))
    ensures Step(s, LyricsFound(lookup, endKnown), hold).frames ==
      s.frames + Owed(s, LyricsFound(lookup, endKnown), hold)
  {}

  /**
   * A track recognized with no song live opens a run: its lyrics are looked up at once, and the run
   * it opens is the track's, with an end timer exactly if its end is known.
   */
  lemma TrackOpens(run: seq<Event>, hold: nat, s: State, key: nat, now: int)
    requires IsRun(SILENT, run, hold, s) && s.scan.Identifying? && s.runId.None?
    ensures Step(s, Recognized(Some(key), now), hold).scan == Fetching(key)
  {
    RunsKeep(SILENT, run, hold, s);
  }

  lemma LyricsOpen(run: seq<Event>, hold: nat, s: State, lookup: Lookup, endKnown: bool)
    requires IsRun(SILENT, run, hold, s) && s.scan.Fetching?
    ensures var t := Step(s, LyricsFound(lookup, endKnown), hold);
      && t.active && t.runId == Some(s.nextId) && t.trackKey == Some(s.scan.key) && t.lastMatch == s.lastMatch
      && t.endTask == endKnown && (t.lyricsPending <==> lookup.Failed?) && t.scan.Idle?
  {}

  /** A retry settles the run's lyrics unless it failed too, and none is owed to a run that ended meanwhile. */
  lemma RetrySettles(run: seq<Event>, hold: nat, s: State, lookup: Lookup, endKnown: bool)
    requires IsRun(SILENT, run, hold, s) && s.scan.Retrying?
    ensures var t := Step(s, LyricsFound(lookup, endKnown), hold);
      && t.runId == s.runId && t.trackKey == s.trackKey && t.scan.Idle?
      && (s.runId.Some? ==>
            && (t.lyricsPending <==> s.lyricsPending && lookup.Failed?)
            && t.endTask == (if lookup.Lines? then endKnown else s.endKnown))
  {
    RunsKeep(SILENT, run, hold, s);
  }
}
