/** The session's music fields as its methods update them, proved against the steps of Music. */
module MusicScanner {
  import opened Prelude
  import opened Music

  class Scanner {
    const hold: nat
    var active: bool
    var runId: Option<nat>
    var lastRunId: Option<nat>
    var trackKey: Option<nat>
    var lastMatch: Option<int>
    var pendingKey: Option<nat>
    var lyricsPending: bool
    var endKnown: bool
    var endTask: bool
    var nextId: nat
    var scan: Scan
    var frames: seq<Frame>
    ghost var sightings: seq<Sighting>

    ghost function View(): State
      reads this
    {
      State(active, runId, lastRunId, trackKey, lastMatch, pendingKey, lyricsPending, endKnown, endTask, nextId, scan,
            frames, sightings)
    }

    constructor (hold: nat)
      ensures View() == SILENT && this.hold == hold
    {
      this.hold := hold;
      active, runId, lastRunId, trackKey, lastMatch, pendingKey := false, None, None, None, None, None;
      lyricsPending, endKnown, endTask, nextId, scan, frames, sightings := false, false, false, 0, Idle, [], [];
    }

    method Send(frame: Frame)
      modifies this`frames
      ensures View() == Emit(old(View()), frame)
    {
      frames := frames + [frame];
    }

    /** `_end_music_run`: the state is cleared before the done is sent. */
    method EndRun()
      modifies this
      ensures View() == End(old(View()))
    {
      if !active {
        return;
      }
      var songId := runId;
      active, runId, trackKey, lastMatch, pendingKey := false, None, None, None, None;
      endTask, endKnown, lyricsPending := false, false, false;
      if songId.Some? {
        Send(SongDone(songId.value, false));
      }
    }

    method EndIfQuiet(now: int)
      modifies this
      ensures View() == HoldCheck(old(View()), now, hold)
    {
      if active && lastMatch.Some? && now - lastMatch.value >= hold {
        EndRun();
      }
    }

    /** `_anchor_song`, then the sync that carries the offset. */
    method SendSync()
      requires runId.Some?
      modifies this
      ensures View() == Reanchor(old(View()))
    {
      endTask := endKnown;
      Send(Sync(runId.value));
    }

    /** `_scan_music_once` from the recognizer's answer to its next await. */
    method OnRecognized(recognized: Option<nat>, now: int)
      requires scan.Identifying?
      modifies this
      ensures View() == Identified(old(View()), recognized, now, hold)
    {
      scan := Idle;
      if recognized.None? {
        EndIfQuiet(now);
        return;
      }
      var key := recognized.value;
      sightings := sightings + [Sighting(key, runId, now)];
      if active && trackKey == Some(key) {
        lastMatch, pendingKey := Some(now), None;
        if runId.None? {
          return;
        }
        if lyricsPending {
          scan := Retrying(runId.value);
        } else {
          SendSync();
        }
      } else if active && pendingKey != Some(key) {
        pendingKey := Some(key);
        EndIfQuiet(now);
      } else {
        lastMatch, pendingKey := Some(now), None;
        if active {
          EndRun();
          scan := Closing(key);
        } else {
          scan := Fetching(key);
        }
      }
    }

    /** `_open_music_run`, its lyrics looked up. */
    method OnLyrics(lookup: Lookup, known: bool)
      requires scan.Fetching?
      modifies this
      ensures View() == Opened(old(View()), old(scan).key, lookup, known)
    {
      var songId, key := nextId, scan.key;
      lyricsPending, nextId, scan := lookup.Failed?, nextId + 1, Idle;
      runId, lastRunId, trackKey, active := Some(songId), Some(songId), Some(key), true;
      endKnown, endTask := known, known;
      Send(Song(songId));
    }

    /** `_retry_song_lyrics` and the rest of `_send_song_sync`: a run ended meanwhile gets no frame. */
    method OnLyricsRetried(lookup: Lookup, known: bool)
      requires scan.Retrying?
      modifies this
      ensures View() == Retried(old(View()), old(scan).run, lookup, known)
    {
      var run := scan.run;
      scan := Idle;
      if !lookup.Failed? {
        if runId != Some(run) {
          return;
        }
        lyricsPending := false;
        if lookup.Lines? {
          endKnown := known;
          endTask := endKnown;
          Send(Song(run));
          return;
        }
      }
      if runId.None? {
        return;
      }
      SendSync();
    }

    /** `_song_end_expire`: the timer drops its own handle before ending the run. */
    method OnSongEnd()
      requires endTask
      modifies this
      ensures View() == Step(old(View()), SongEnds, hold)
    {
      endTask := false;
      EndRun();
    }

    /** The end of `rebind`, then `resend_ended_asides`. */
    method OnSocketResumed()
      modifies this
      ensures var t := Step(old(View()), SocketResumed, hold);
              View() == Step(t, ResendAsides, hold)
    {
      if active && runId.Some? {
        Send(Song(runId.value));
      }
      if !active && lastRunId.Some? {
        Send(SongDone(lastRunId.value, true));
      }
    }
  }
}
