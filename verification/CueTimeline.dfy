/**
 * The live scheduler driven by finals that arrive at their end times and by calls whose latencies
 * and outcomes are given: what scripts/cue_eval/replay.py claims to emulate. Events due at the
 * instant of a final come before it, and a call's end before a floor timer of the same instant.
 */
module CueTimeline {
  import opened Prelude
  import opened CueGate

  /** How one call turned out: how long it was in flight, and whether it showed a cue. */
  datatype Outcome = Outcome(latencyMs: nat, shown: bool)

  /** A finalized turn of the transcript. */
  datatype Segment = Segment(text: string, endMs: nat)

  /** When the call in flight ends: its start plus the latency given for that attempt. */
  function EndOf(s: State, oracle: nat -> Outcome): int
    requires s.call.Some? && s.attempts != []
  {
    s.call.value.startedAt + oracle(|s.attempts| - 1).latencyMs
  }

  predicate Due(t: int, until: Option<int>) {
    until.None? || t <= until.value
  }

  /** The call in flight ends at `now`, showing its cue first if it has one to show. */
  function FinishCall(s: State, oracle: nat -> Outcome, now: int): State
    requires s.call.Some? && s.attempts != []
  {
    CallEnded(if oracle(|s.attempts| - 1).shown then CueShown(s, now) else s, now)
  }

  predicate CallDue(s: State, oracle: nat -> Outcome, until: Option<int>) {
    && s.call.Some? && s.attempts != [] && Due(EndOf(s, oracle), until)
    && (s.timer.None? || EndOf(s, oracle) <= s.timer.value)
  }

  predicate TimerDue(s: State, until: Option<int>) {
    s.timer.Some? && Due(s.timer.value, until)
  }

  function Pending(s: State): nat {
    (if s.timer.Some? then 4 else 0) + (if s.missed.Some? then 2 else 0) + (if s.call.Some? then 1 else 0)
  }

  /** Every call end and floor timer due by `until`, earliest first. */
  function Advance(s: State, oracle: nat -> Outcome, until: Option<int>): State
    decreases Pending(s)
  {
    if CallDue(s, oracle, until) then Advance(FinishCall(s, oracle, EndOf(s, oracle)), oracle, until)
    else if TimerDue(s, until) then Advance(FloorLapsed(s, s.timer.value), oracle, until)
    else s
  }

  /** Once the session has advanced to `until`, nothing is due by then. */
  lemma {:induction false} AdvanceSettles(s: State, oracle: nat -> Outcome, until: Option<int>)
    ensures !CallDue(Advance(s, oracle, until), oracle, until) && !TimerDue(Advance(s, oracle, until), until)
    decreases Pending(s)
  {
    if CallDue(s, oracle, until) {
      AdvanceSettles(FinishCall(s, oracle, EndOf(s, oracle)), oracle, until);
    } else if TimerDue(s, until) {
      AdvanceSettles(FloorLapsed(s, s.timer.value), oracle, until);
    }
  }

  /** The session over a transcript so far: each turn finalizes at its end time. */
  function Live(segments: seq<Segment>, oracle: nat -> Outcome): State {
    if segments == [] then INIT
    else
      var last := segments[|segments| - 1];
      var before := Advance(Live(segments[..|segments| - 1], oracle), oracle, Some(last.endMs));
      if last.text == "" then Live(segments[..|segments| - 1], oracle)
      else Consider(before, last.endMs, last.text, last.endMs)
  }

  /** The session over a whole transcript, run until nothing more is due. */
  function WholeSession(segments: seq<Segment>, oracle: nat -> Outcome): State {
    Advance(Live(segments, oracle), oracle, None)
  }

  ghost predicate Chronological(segments: seq<Segment>) {
    forall i, j :: 0 <= i < j < |segments| ==> segments[i].endMs <= segments[j].endMs
  }
}
