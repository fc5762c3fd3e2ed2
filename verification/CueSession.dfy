/**
 * The session behind the replay is a session: the timeline of CueTimeline is a run of the scheduler in
 * which everything happens when it is due, and there is no other.
 */
module CueSession {
  import opened Prelude
  import opened CueGate
  import opened CueInvariants
  import opened CueTimeline
  import CueStarts

  // ---- What being on time means --------------------------------------------

  /** The call in flight ends at `at`. */
  predicate CallEnds(s: State, oracle: nat -> Outcome, at: int) {
    && s.call.Some? && |s.attempts| > 0
    && at == s.call.value.startedAt + oracle(|s.attempts| - 1).latencyMs
  }

  /** The call in flight is still going at `at`. */
  predicate CallGoesOn(s: State, oracle: nat -> Outcome, at: int) {
    s.call.Some? ==> |s.attempts| > 0 && at < s.call.value.startedAt + oracle(|s.attempts| - 1).latencyMs
  }

  /** Whether the call in flight comes to a cue. */
  predicate Shows(s: State, oracle: nat -> Outcome) { |s.attempts| > 0 && oracle(|s.attempts| - 1).shown }

  /**
   * A turn finalizes at its end, after all that was due by then; the floor timer fires when it lapses,
   * after any call that ends by then; a call ends after its latency, showing its cue first if it has one.
   */
  predicate OnTime(s: State, e: Event, now: int, oracle: nat -> Outcome) {
    match e
    case Final(text, endMs) =>
      now == endMs && text != "" && CallGoesOn(s, oracle, now) && (s.timer.Some? ==> now < s.timer.value)
    case FloorTimer => s.timer == Some(now) && CallGoesOn(s, oracle, now)
    case Show => CallEnds(s, oracle, now) && (s.timer.Some? ==> now <= s.timer.value) && Shows(s, oracle)
    case End =>
      && CallEnds(s, oracle, now) && (s.timer.Some? ==> now <= s.timer.value)
      && (s.call.value.shown <==> Shows(s, oracle))
    case _ => false
  }

  ghost predicate IsTimely(s: State, now: int, run: seq<(Event, int)>, oracle: nat -> Outcome, end: State)
    decreases |run|
  {
    if |run| == 0 then end == s
    else
      && run[0].1 >= now && Enabled(s, run[0].0, run[0].1) && OnTime(s, run[0].0, run[0].1, oracle)
      && IsTimely(Step(s, run[0].0, run[0].1), run[0].1, run[1..], oracle, end)
  }

  /** The transcript's turns with any text. */
  function Spoken(segments: seq<Segment>): seq<(string, int)> {
    if |segments| == 0 then []
    else
      var n := |segments| - 1;
      Spoken(segments[..n]) + (if segments[n].text == "" then [] else [(segments[n].text, segments[n].endMs)])
  }

  // ---- Runs put together ---------------------------------------------------

  lemma {:induction false} TimelyIsRun(s: State, now: int, run: seq<(Event, int)>, oracle: nat -> Outcome, end: State)
    requires IsTimely(s, now, run, oracle, end)
    ensures IsRun(s, now, run, end)
    decreases |run|
  {
    if |run| > 0 { TimelyIsRun(Step(s, run[0].0, run[0].1), run[0].1, run[1..], oracle, end); }
  }

  lemma {:induction false} OneMore(
    s: State, now: int, run: seq<(Event, int)>, oracle: nat -> Outcome, mid: State, e: Event, at: int)
    requires IsTimely(s, now, run, oracle, mid) && EndsAt(now, run) <= at
    requires Enabled(mid, e, at) && OnTime(mid, e, at, oracle)
    ensures IsTimely(s, now, run + [(e, at)], oracle, Step(mid, e, at))
    decreases |run|
  {
    var more := run + [(e, at)];
    assert more[0] == if |run| > 0 then run[0] else (e, at);
    if |run| > 0 {
      OneMore(Step(s, run[0].0, run[0].1), run[0].1, run[1..], oracle, mid, e, at);
      assert more[1..] == run[1..] + [(e, at)];
    } else {
      assert |more[1..]| == 0;
    }
  }

  /** The session can be in state s at time c, everything so far having happened on time. */
  ghost predicate Reached(s: State, c: int, oracle: nat -> Outcome) {
    exists run :: IsTimely(INIT, 0, run, oracle, s) && EndsAt(0, run) <= c
  }

  /** And nothing in it is overdue. */
  predicate Undue(s: State, c: int, oracle: nat -> Outcome) {
    && !s.translation && !s.music && !s.closed && (s.timer.Some? ==> c <= s.timer.value)
    && (s.call.Some? ==> |s.attempts| > 0 && !s.call.value.shown && c <= EndOf(s, oracle))
  }

  ghost predicate Calm(s: State, c: int, oracle: nat -> Outcome) { Inv(s, c) && Undue(s, c, oracle) }

  lemma Goes(s: State, c: int, e: Event, at: int, oracle: nat -> Outcome)
    requires Reached(s, c, oracle) && c <= at && Enabled(s, e, at) && OnTime(s, e, at, oracle)
    ensures Reached(Step(s, e, at), at, oracle)
  {
    var run :| IsTimely(INIT, 0, run, oracle, s) && EndsAt(0, run) <= c;
    OneMore(INIT, 0, run, oracle, s, e, at);
    var more := run + [(e, at)];
    assert EndsAt(0, more) == at;
  }

  lemma CallUndue(s: State, c: int, oracle: nat -> Outcome, at: int)
    requires Undue(s, c, oracle) && s.call.Some? && at == EndOf(s, oracle)
    requires s.timer.Some? ==> at <= s.timer.value
    ensures c <= at && Undue(FinishCall(s, oracle, at), at, oracle)
  {}

  lemma CallCalm(s: State, c: int, oracle: nat -> Outcome, at: int)
    requires Calm(s, c, oracle) && s.call.Some? && at == EndOf(s, oracle)
    requires s.timer.Some? ==> at <= s.timer.value
    ensures c <= at && Calm(FinishCall(s, oracle, at), at, oracle)
  {
    CallUndue(s, c, oracle, at);
    LaterStillTimed(s, c, at);
    if oracle(|s.attempts| - 1).shown { CueShownKeeps(s, at); }
    CallEndedKeeps(if oracle(|s.attempts| - 1).shown then CueShown(s, at) else s, at);
  }

  /** The call in flight ends. */
  lemma CallGoes(s: State, c: int, oracle: nat -> Outcome, at: int)
    requires Reached(s, c, oracle) && Calm(s, c, oracle) && s.call.Some? && at == EndOf(s, oracle)
    requires s.timer.Some? ==> at <= s.timer.value
    ensures Reached(FinishCall(s, oracle, at), at, oracle)
  {
    if Shows(s, oracle) {
      Goes(s, c, Show, at, oracle);
      Goes(CueShown(s, at), at, End, at, oracle);
    } else {
      Goes(s, c, End, at, oracle);
    }
  }

  lemma TimerGoes(s: State, c: int, oracle: nat -> Outcome)
    requires Reached(s, c, oracle) && Calm(s, c, oracle) && s.timer.Some?
    requires s.call.Some? ==> s.timer.value < EndOf(s, oracle)
    ensures var at := s.timer.value;
      c <= at && Reached(FloorLapsed(s, at), at, oracle) && Calm(FloorLapsed(s, at), at, oracle)
  {
    var at := s.timer.value;
    LaterStillTimed(s, c, at);
    StepKeeps(s, FloorTimer, at);
    Goes(s, c, FloorTimer, at, oracle);
  }

  ghost predicate Stands(s: State, c: int, oracle: nat -> Outcome) { Reached(s, c, oracle) && Calm(s, c, oracle) }

  lemma CallStands(s: State, c: int, oracle: nat -> Outcome, until: Option<int>, at: int)
    requires Stands(s, c, oracle) && CallDue(s, oracle, until) && at == EndOf(s, oracle)
    ensures Stands(FinishCall(s, oracle, at), at, oracle)
  {
    CallCalm(s, c, oracle, at);
    CallGoes(s, c, oracle, at);
  }

  lemma TimerStands(s: State, c: int, oracle: nat -> Outcome, until: Option<int>)
    requires Stands(s, c, oracle) && TimerDue(s, until) && !CallDue(s, oracle, until)
    ensures Stands(FloorLapsed(s, s.timer.value), s.timer.value, oracle)
  {
    TimerGoes(s, c, oracle);
  }

  lemma {:induction false} AdvanceStands(s: State, c: int, oracle: nat -> Outcome, until: Option<int>) returns (d: int)
    requires Stands(s, c, oracle) && Due(c, until)
    ensures Stands(Advance(s, oracle, until), d, oracle) && Due(d, until)
    decreases Pending(s)
  {
    d := c;
    if CallDue(s, oracle, until) {
      var at := EndOf(s, oracle);
      CallStands(s, c, oracle, until, at);
      d := AdvanceStands(FinishCall(s, oracle, at), at, oracle, until);
    } else if TimerDue(s, until) {
      TimerStands(s, c, oracle, until);
      d := AdvanceStands(FloorLapsed(s, s.timer.value), s.timer.value, oracle, until);
    }
  }

  lemma FinalUndue(s: State, c: int, text: string, at: int, oracle: nat -> Outcome)
    requires Undue(s, c, oracle) && c <= at && !CallDue(s, oracle, Some(at)) && !TimerDue(s, Some(at))
    ensures Undue(Consider(s, at, text, at), at, oracle)
  {}

  lemma FinalCalm(s: State, c: int, text: string, at: int, oracle: nat -> Outcome)
    requires Calm(s, c, oracle) && c <= at && !CallDue(s, oracle, Some(at)) && !TimerDue(s, Some(at))
    ensures Calm(Consider(s, at, text, at), at, oracle)
  {
    FinalUndue(s, c, text, at, oracle);
    LaterStillTimed(s, c, at);
    ConsiderKeeps(s, at, text, at);
  }

  lemma FinalStands(s: State, c: int, text: string, at: int, oracle: nat -> Outcome)
    requires Stands(s, c, oracle) && c <= at && text != ""
    requires !CallDue(s, oracle, Some(at)) && !TimerDue(s, Some(at))
    ensures Stands(Consider(s, at, text, at), at, oracle)
  {
    FinalCalm(s, c, text, at, oracle);
    Goes(s, c, Final(text, at), at, oracle);
  }

  lemma {:induction false} LiveStands(segments: seq<Segment>, oracle: nat -> Outcome) returns (c: int)
    requires Chronological(segments)
    ensures Stands(Live(segments, oracle), c, oracle)
    ensures if |segments| == 0 then c == 0 else c <= segments[|segments| - 1].endMs
  {
    if |segments| == 0 {
      c := 0;
      InitInv(0);
      assert IsTimely(INIT, 0, [], oracle, INIT);
    } else {
      var front, last := segments[..|segments| - 1], segments[|segments| - 1];
      c := LiveStands(front, oracle);
      if last.text != "" {
        var before, at := Live(front, oracle), last.endMs;
        c := AdvanceStands(before, c, oracle, Some(at));
        AdvanceSettles(before, oracle, Some(at));
        FinalStands(Advance(before, oracle, Some(at)), c, last.text, at, oracle);
        c := at;
      }
    }
  }

  // ---- The turns of the session --------------------------------------------

  lemma CallSaid(s: State, oracle: nat -> Outcome, at: int)
    requires s.call.Some? && |s.attempts| > 0
    ensures CueStarts.Said(FinishCall(s, oracle, at).turns) == CueStarts.Said(s.turns)
    ensures FinishCall(s, oracle, at).closed == s.closed
  {
    var t := if oracle(|s.attempts| - 1).shown then CueShown(s, at) else s;
    CueStarts.SaidCaughtUp(t.(call := None), at);
  }

  lemma {:induction false} AdvanceSaid(s: State, oracle: nat -> Outcome, until: Option<int>)
    ensures CueStarts.Said(Advance(s, oracle, until).turns) == CueStarts.Said(s.turns)
    ensures Advance(s, oracle, until).closed == s.closed
    decreases Pending(s)
  {
    if CallDue(s, oracle, until) {
      var at := EndOf(s, oracle);
      CallSaid(s, oracle, at);
      AdvanceSaid(FinishCall(s, oracle, at), oracle, until);
    } else if TimerDue(s, until) {
      CueStarts.SaidLapsed(s, s.timer.value);
      AdvanceSaid(FloorLapsed(s, s.timer.value), oracle, until);
    }
  }

  lemma {:induction false} LiveSaid(segments: seq<Segment>, oracle: nat -> Outcome)
    ensures CueStarts.Said(Live(segments, oracle).turns) == Spoken(segments) && !Live(segments, oracle).closed
  {
    if |segments| > 0 {
      var front, last := segments[..|segments| - 1], segments[|segments| - 1];
      LiveSaid(front, oracle);
      if last.text != "" {
        var before := Advance(Live(front, oracle), oracle, Some(last.endMs));
        AdvanceSaid(Live(front, oracle), oracle, Some(last.endMs));
        CueStarts.StepSaid(before, Final(last.text, last.endMs), last.endMs);
      }
    }
  }

  /** Nothing is left to happen. */
  predicate Quiet(s: State) { s.call.None? && s.timer.None? }

  /** The run is a session over the transcript: all its turns, everything on time, to the end. */
  ghost predicate IsSession(segments: seq<Segment>, oracle: nat -> Outcome, run: seq<(Event, int)>, end: State) {
    IsTimely(INIT, 0, run, oracle, end) && CueStarts.Finals(run) == Spoken(segments) && Quiet(end)
  }

  /** The session the replay is held against is one. */
  lemma SessionIsTimely(segments: seq<Segment>, oracle: nat -> Outcome)
    requires Chronological(segments)
    ensures exists run :: IsSession(segments, oracle, run, WholeSession(segments, oracle))
  {
    var live, end := Live(segments, oracle), WholeSession(segments, oracle);
    var c := LiveStands(segments, oracle);
    var d := AdvanceStands(live, c, oracle, None);
    AdvanceSettles(live, oracle, None);
    var run :| IsTimely(INIT, 0, run, oracle, end) && EndsAt(0, run) <= d;
    TimelyIsRun(INIT, 0, run, oracle, end);
    CueStarts.EveryFinalIsATurn(run, end);
    LiveSaid(segments, oracle);
    AdvanceSaid(live, oracle, None);
    assert IsSession(segments, oracle, run, end);
  }

  // ---- There is no other ---------------------------------------------------

  /** The next turn is not over before whatever comes first. */
  lemma {:induction false} NextFinal(s: State, now: int, run: seq<(Event, int)>, oracle: nat -> Outcome, end: State)
    requires IsTimely(s, now, run, oracle, end)
    ensures |CueStarts.Finals(run)| > 0 ==> CueStarts.Finals(run)[0].1 >= now
    decreases |run|
  {
    if |run| > 0 && !run[0].0.Final? && !run[0].0.Close? {
      NextFinal(Step(s, run[0].0, run[0].1), run[0].1, run[1..], oracle, end);
    }
  }

  lemma NotBefore(s: State, e: Event, at: int, f: Event, due: int, oracle: nat -> Outcome)
    requires OnTime(s, e, at, oracle) && OnTime(s, f, due, oracle) && e.Final? && !f.Final?
    ensures at < due
  {}

  lemma SameMoment(s: State, e: Event, at: int, f: Event, due: int, oracle: nat -> Outcome)
    requires Enabled(s, e, at) && OnTime(s, e, at, oracle) && Enabled(s, f, due) && OnTime(s, f, due, oracle)
    requires !e.Final? && !f.Final?
    ensures e == f && at == due
  {}

  lemma {:induction false} SameNext(
    s: State, now: int, a: seq<(Event, int)>, b: seq<(Event, int)>, oracle: nat -> Outcome, x: State, y: State)
    requires |a| > 0 && |b| > 0 && IsTimely(s, now, a, oracle, x) && IsTimely(s, now, b, oracle, y)
    requires CueStarts.Finals(a) == CueStarts.Finals(b)
    ensures a[0] == b[0]
  {
    var (e, at) := a[0];
    var (f, due) := b[0];
    if e.Final? && !f.Final? {
      NotBefore(s, e, at, f, due, oracle);
      assert CueStarts.Finals(a)[0] == (e.text, e.endMs);
      NextFinal(Step(s, f, due), due, b[1..], oracle, y);
      assert false;
    } else if f.Final? && !e.Final? {
      NotBefore(s, f, due, e, at, oracle);
      assert CueStarts.Finals(b)[0] == (f.text, f.endMs);
      NextFinal(Step(s, e, at), at, a[1..], oracle, x);
      assert false;
    } else if e.Final? {
      assert CueStarts.Finals(a)[0] == (e.text, e.endMs) && CueStarts.Finals(b)[0] == (f.text, f.endMs);
    } else {
      SameMoment(s, e, at, f, due, oracle);
    }
  }

  lemma {:induction false} FinalsLeft(run: seq<(Event, int)>)
    requires |run| > 0 && !run[0].0.Close?
    ensures run[0].0.Final? ==> |CueStarts.Finals(run)| > 0
    ensures CueStarts.Finals(run[1..]) ==
              if run[0].0.Final? then CueStarts.Finals(run)[1..] else CueStarts.Finals(run)
  {}

  /** A run on time only goes on with a turn, or with something the scheduler still has to do. */
  lemma {:induction false} LeftToDo(s: State, now: int, run: seq<(Event, int)>, oracle: nat -> Outcome, end: State)
    requires IsTimely(s, now, run, oracle, end)
    ensures Quiet(s) && |CueStarts.Finals(run)| == 0 ==> |run| == 0
  {}

  lemma {:induction false} Unique(
    s: State, now: int, a: seq<(Event, int)>, b: seq<(Event, int)>, oracle: nat -> Outcome, x: State, y: State)
    requires IsTimely(s, now, a, oracle, x) && IsTimely(s, now, b, oracle, y)
    requires CueStarts.Finals(a) == CueStarts.Finals(b) && Quiet(x) && Quiet(y)
    ensures x == y
    decreases |a|
  {
    if |a| > 0 && |b| > 0 {
      SameNext(s, now, a, b, oracle, x, y);
      FinalsLeft(a);
      FinalsLeft(b);
      Unique(Step(s, a[0].0, a[0].1), a[0].1, a[1..], b[1..], oracle, x, y);
    } else {
      LeftToDo(s, now, a, oracle, x);
      LeftToDo(s, now, b, oracle, y);
    }
  }

  /** Every session over the transcript, with these latencies and outcomes, ends in the same state. */
  lemma OnlySession(segments: seq<Segment>, oracle: nat -> Outcome, run: seq<(Event, int)>, end: State)
    requires Chronological(segments) && IsSession(segments, oracle, run, end)
    ensures end == WholeSession(segments, oracle)
  {
    SessionIsTimely(segments, oracle);
    var other :| IsSession(segments, oracle, other, WholeSession(segments, oracle));
    Unique(INIT, 0, run, other, oracle, end, WholeSession(segments, oracle));
  }
}
