/** Both ways a resumed socket can miss a promised frame do happen. */
module ResumeLosses {
  import opened Prelude
  import opened ResumeFrames
  import opened ResumeDelivery

  function LastTime(now: int, run: seq<(Event, int)>): int {
    if |run| == 0 then now else run[|run| - 1].1
  }

  lemma {:induction false} RunThen(s: State, now: int, run: seq<(Event, int)>, mid: State, e: Event, at: int)
    requires IsRun(s, now, run, mid) && Enabled(mid, e) && LastTime(now, run) < at
    ensures IsRun(s, now, run + [(e, at)], Step(mid, e, at))
    decreases |run|
  {
    var all := run + [(e, at)];
    if |run| > 0 {
      RunThen(Step(s, run[0].0, run[0].1), run[0].1, run[1..], mid, e, at);
      assert all[1..] == run[1..] + [(e, at)];
    } else {
      assert all[1..] == run;
    }
  }

  /** One more event, at the next tick, after a run of the session's own. */
  lemma Then(run: seq<(Event, int)>, s: State, e: Event) returns (longer: seq<(Event, int)>, t: State)
    requires IsRun(INIT, 0, run, s) && Enabled(s, e)
    ensures IsRun(INIT, 0, longer, t) && t == Step(s, e, LastTime(0, run) + 1)
    ensures LastTime(0, longer) == LastTime(0, run) + 1
  {
    var at := LastTime(0, run) + 1;
    RunThen(INIT, 0, run, s, e, at);
    longer, t := run + [(e, at)], Step(s, e, at);
  }

  const FINAL := Frame("", true)

  /** A log of n finals, one a tick. */
  function Finals(was: int, n: nat): (log: seq<Stamped>)
    ensures |log| == n
  {
    seq(n, k requires 0 <= k < n => Stamped(was + 1 + k, FINAL))
  }

  lemma {:induction false} ProduceMany(run0: seq<(Event, int)>, s0: State, n: nat)
    returns (run: seq<(Event, int)>, s: State)
    requires IsRun(INIT, 0, run0, s0)
    ensures IsRun(INIT, 0, run, s) && LastTime(0, run) == LastTime(0, run0) + n
    ensures s.log == s0.log + Finals(LastTime(0, run0), n) && s.sink == s0.sink
    decreases n
  {
    if n == 0 {
      run, s := run0, s0;
    } else {
      var was := LastTime(0, run0);
      run, s := ProduceMany(run0, s0, n - 1);
      run, s := Then(run, s, Frame_(FINAL));
      assert Finals(was, n) == Finals(was, n - 1) + [Stamped(was + n, FINAL)];
    }
  }

  /** A rebind under way can finish with nothing more produced. */
  lemma {:induction false} Drain(run0: seq<(Event, int)>, s0: State) returns (run: seq<(Event, int)>, s: State)
    requires IsRun(INIT, 0, run0, s0) && s0.sink.CatchingUp?
    ensures IsRun(INIT, 0, run, s) && s.sink.Socket?
    ensures s.log == s0.log && s.lost == s0.lost && s.resume == s0.resume
    decreases |s0.pending| + |s0.buffer|, |s0.buffer|
  {
    if s0.pending != [] {
      run, s := Then(run0, s0, Sent);
      run, s := Drain(run, s);
    } else {
      run, s := Then(run0, s0, Batch);
      if s0.buffer != [] { run, s := Drain(run, s); }
    }
  }

  /** A detached session resumed, with nothing more produced. */
  lemma {:induction false} ResumeQuietly(run0: seq<(Event, int)>, s0: State) returns (run: seq<(Event, int)>, s: State)
    requires IsRun(INIT, 0, run0, s0) && s0.sink.Detached?
    ensures IsRun(INIT, 0, run, s) && s.sink.Socket?
    ensures s.log == s0.log && s.lost == s0.lost && s.resume == Some(Resumption(s0.sink.since, true, |s0.log|))
  {
    run, s := Then(run0, s0, Resume(true));
    run, s := Drain(run, s);
  }

  lemma {:induction false} RememberedAll(log: seq<Stamped>)
    requires forall k :: 0 <= k < |log| ==> log[k].frame.remembered
    ensures Remembered(log) == log
  {
    if |log| > 0 {
      RememberedAll(log[..|log| - 1]);
      assert log == log[..|log| - 1] + [log[|log| - 1]];
    }
  }

  lemma {:induction false} FirstForgotten(log: seq<Stamped>, r: Resumption)
    requires r.logged == |log| == RECENT_MAX + 1 && r.givenUp - RECENT_WINDOW_MS <= log[0].at < r.givenUp
    requires forall k :: 0 <= k < |log| ==> log[k].frame.remembered
    ensures Forgotten(log, r) == [log[0].frame]
  {
    assert log[..r.logged] == log;
    RememberedAll(log);
    var first := log[..|log| - |LastN(log, RECENT_MAX)|];
    assert |first| == 1 && first[0] == log[0] && first[..0] == [];
    assert Select(first[..0], r.givenUp - RECENT_WINDOW_MS, r.givenUp) == [];
  }

  lemma {:induction false} NothingMissed(log: seq<Stamped>, since: int, lost: set<int>)
    requires forall k :: 0 <= k < |log| ==> log[k].at < since
    ensures Missed(log, since, lost) == []
  {
    if |log| > 0 { NothingMissed(log[..|log| - 1], since, lost); }
  }

  lemma {:induction false} FirstKeptOrMissed(log: seq<Stamped>, since: int, lost: set<int>)
    requires |log| > 0 && since <= log[0].at
    ensures 0 in lost ==> Missed(log, since, lost) != []
    ensures 0 !in lost ==> Kept(log, since, lost) != []
  {
    if |log| > 1 { FirstKeptOrMissed(log[..|log| - 1], since, lost); }
  }

  lemma {:induction false} Crowding() returns (run: seq<(Event, int)>, s: State)
    ensures IsRun(INIT, 0, run, s) && s.sink == Detached(RECENT_MAX + 2) && |s.log| == RECENT_MAX + 1
    ensures forall k :: 0 <= k < |s.log| ==> s.log[k].frame.remembered && 0 < s.log[k].at < RECENT_MAX + 2
  {
    run, s := ProduceMany([], INIT, RECENT_MAX + 1);
    assert s.log == Finals(0, RECENT_MAX + 1);
    run, s := Then(run, s, Drop);
  }

  /** More finals in the window than are remembered: the resumed socket misses the first. */
  lemma {:induction false} CapForgets()
    ensures exists run, s ::
      && IsRun(INIT, 0, run, s) && s.sink.Socket? && s.resume.Some? && s.resume.value.replayRecent
      && s.resume.value.logged <= |s.log| && Forgotten(s.log, s.resume.value) != []
      && Missed(s.log, s.resume.value.givenUp, s.lost) == []
  {
    var run, s := Crowding();
    run, s := ResumeQuietly(run, s);
    FirstForgotten(s.log, s.resume.value);
    NothingMissed(s.log, s.resume.value.givenUp, s.lost);
  }

  /** A full buffer has pushed out the first frame of a longer log. */
  lemma {:induction false} OverflowLoses(s: State, now: int)
    requires Inv(s, now) && s.sink.Detached? && |s.log| > DETACHED_BUFFER_MAX && s.sink.since <= s.log[0].at
    ensures 0 in s.lost
  {
    FirstKeptOrMissed(s.log[..s.Held()], s.sink.since, s.lost);
  }

  lemma {:induction false} Overflowing() returns (run: seq<(Event, int)>, s: State)
    ensures IsRun(INIT, 0, run, s) && s.sink == Detached(1)
    ensures s.log == Finals(1, DETACHED_BUFFER_MAX + 1)
  {
    run, s := Then([], INIT, Drop);
    run, s := ProduceMany(run, s, DETACHED_BUFFER_MAX + 1);
  }

  /** More frames while detached than the buffer holds: the resumed socket misses the first. */
  lemma {:induction false} BufferOverflows()
    ensures exists run, s ::
      && IsRun(INIT, 0, run, s) && s.sink.Socket? && s.resume.Some? && s.resume.value.replayRecent
      && s.resume.value.logged <= |s.log| && Missed(s.log, s.resume.value.givenUp, s.lost) != []
  {
    var run, s := Overflowing();
    var now := RunsKeep(INIT, 0, run, s);
    OverflowLoses(s, now);
    run, s := ResumeQuietly(run, s);
    FirstKeptOrMissed(s.log, 1, s.lost);
  }
}
