/** The scheduler's fields and methods as `Session` has them (api/src/api/session.py). */
module CueScheduler {
  import opened Prelude
  import opened CueGate

  class Scheduler {
    var recentFinals: seq<string>
    var lastCue: Option<int>
    var lastCueAttempt: Option<int>
    var inflight: bool
    var missedAt: Option<int>
    var heldAt: Option<int>
    var floorTimer: Option<int>
    var translationActive: bool
    var musicActive: bool
    var closed: bool

    ghost var shown: bool
    ghost var turns: seq<Turn>
    ghost var attempts: seq<Attempt>
    ghost var seen: seq<nat>
    ghost var past: Past

    /** The fields as a gate state: the call in flight started at the last attempt. */
    ghost function View(): State
      reads this
    {
      State(recentFinals, lastCue, lastCueAttempt,
            if inflight then Some(Call(if lastCueAttempt.Some? then lastCueAttempt.value else 0, shown)) else None,
            missedAt, heldAt, floorTimer, translationActive, musicActive, closed, turns, attempts, seen, past)
    }

    constructor ()
      ensures View() == INIT
    {
      recentFinals, lastCue, lastCueAttempt, inflight := [], None, None, false;
      missedAt, heldAt, floorTimer := None, None, None;
      translationActive, musicActive, closed := false, false, false;
      shown, turns, attempts, seen, past := false, [], [], [], Past([], [], None);
    }

    /** The context window gains a final that has text. */
    method RememberFinal(text: string)
      modifies this`recentFinals
      ensures recentFinals == Remember(old(recentFinals), text)
    {
      if text != "" {
        recentFinals := recentFinals + [text];
        if |recentFinals| > CONTEXT_SEGMENTS {
          recentFinals := recentFinals[|recentFinals| - CONTEXT_SEGMENTS..];
        }
      }
    }

    /** A turn and its fate, noted for the claims. */
    ghost method NoteTurn(turn: Turn)
      modifies this`turns
      ensures turns == old(turns) + [turn]
    {
      turns := turns + [turn];
    }

    /** `_consider_cue` at time `now`. */
    method ConsiderCue(now: int, text: string, endMs: int)
      modifies this
      ensures View() == Consider(old(View()), now, text, endMs)
    {
      if closed {
        return;
      }
      RememberFinal(text);
      if translationActive || musicActive {
        NoteTurn(Turn(text, endMs, past.Gated(now)));
        return;
      }
      if lastCueAttempt.Some? {
        var waitMs := ATTEMPT_INTERVAL_MS - (now - lastCueAttempt.value);
        if waitMs > 0 {
          NoteTurn(Turn(text, endMs, Held));
          heldAt := Some(endMs);
          if floorTimer.None? {
            floorTimer := Some(now + waitMs);
          }
          return;
        }
      }
      if inflight {
        NoteTurn(Turn(text, endMs, Missed));
        missedAt := Some(endMs);
        return;
      }
      if lastCue.Some? {
        if now - lastCue.value < MIN_INTERVAL_MS {
          NoteTurn(Turn(text, endMs, past.Soon(now)));
          return;
        }
      }
      NoteTurn(Turn(text, endMs, Held));
      StartCue(now, endMs);
    }

    /** A call that has yet to show its cue, and the turns it covers, noted for the claims. */
    ghost method NoteAttempt(attempt: Attempt)
      modifies this`shown, this`turns, this`attempts, this`seen
      ensures !shown && attempts == old(attempts) + [attempt] && seen == old(seen) + [|old(turns)|]
      ensures turns == Refate(old(turns), Covered(|old(attempts)|), Covered(|old(attempts)|))
    {
      shown, turns := false, Refate(turns, Covered(|attempts|), Covered(|attempts|));
      attempts, seen := attempts + [attempt], seen + [|turns|];
    }

    /** `_start_cue`: never called with a call in flight. */
    method StartCue(now: int, atMs: int)
      requires !inflight
      modifies this
      ensures View() == Start(old(View()), now, atMs)
    {
      inflight, lastCueAttempt, heldAt, floorTimer := true, Some(now), None, None;
      NoteAttempt(Attempt(now, atMs, recentFinals));
    }

    /** `_cue_catch_up`. */
    method CatchUp(now: int)
      requires !inflight
      modifies this
      ensures View() == CueGate.CatchUp(old(View()), now)
    {
      var at := missedAt;
      missedAt := None;
      if at.None? {
        return;
      }
      if closed {
        turns := Refate(turns, Held, Ended(now));
        return;
      }
      if translationActive || musicActive {
        turns := Refate(turns, Held, past.Gated(now));
        return;
      }
      if lastCue.Some? {
        if now - lastCue.value < MIN_INTERVAL_MS {
          turns := Refate(turns, Held, past.Soon(now));
          return;
        }
      }
      StartCue(now, at.value);
    }

    /** `_cue_floor_lapsed`, when the timer fires. */
    method FloorLapsed(now: int)
      modifies this
      ensures View() == CueGate.FloorLapsed(old(View()), now)
    {
      floorTimer := None;
      var held := heldAt;
      heldAt := None;
      if held.None? {
        return;
      }
      missedAt := held;
      turns := Refate(turns, Missed, Missed);
      if !inflight {
        CatchUp(now);
      }
    }

    /** `_generate_cue` reaching the point where its cue is surfaced. */
    method ShowCue(now: int)
      requires inflight
      modifies this
      ensures View() == CueShown(old(View()), now)
    {
      lastCue := Some(now);
      shown, past := true, past.(shows := past.shows + [now]);
    }

    /** `_generate_cue`'s `finally`, however the call went. */
    method EndCall(now: int)
      modifies this
      ensures View() == CallEnded(old(View()), now)
    {
      inflight := false;
      CatchUp(now);
    }
  }
}
