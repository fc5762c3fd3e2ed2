/** What every resumed socket has been sent, over every interleaving of frames, drops and resumes. */
module ResumeDelivery {
  import opened ResumeFrames

  // ---- Logs ----------------------------------------------------------------

  lemma {:induction false} LogAppend(log: seq<Stamped>, e: Stamped, since: int)
    ensures Remembered(log + [e]) == Remembered(log) + (if e.frame.remembered then [e] else [])
    ensures Since(log + [e], since) == Since(log, since) + (if since <= e.at then [e.frame] else [])
  {
    assert (log + [e])[..|log|] == log;
  }

  lemma {:induction false} SinceNothing(log: seq<Stamped>, since: int)
    requires forall k :: 0 <= k < |log| ==> log[k].at < since
    ensures Since(log, since) == []
  {
    if |log| > 0 { SinceNothing(log[..|log| - 1], since); }
  }

  lemma {:induction false} KeptNothing(log: seq<Stamped>, since: int, lost: set<int>)
    requires forall k :: 0 <= k < |log| ==> log[k].at < since
    ensures Kept(log, since, lost) == []
  {
    if |log| > 0 { KeptNothing(log[..|log| - 1], since, lost); }
  }

  /** A frame lost at or after the end of a log changes nothing in it. */
  lemma {:induction false} KeptLosing(log: seq<Stamped>, since: int, lost: set<int>, j: int)
    requires |log| <= j
    ensures Kept(log, since, lost + {j}) == Kept(log, since, lost)
  {
    if |log| > 0 { KeptLosing(log[..|log| - 1], since, lost, j); }
  }

  /** Nothing at or after `from` is lost, and all of it is since: it is kept whole. */
  lemma {:induction false} KeptTail(log: seq<Stamped>, since: int, lost: set<int>, from: nat)
    requires from <= |log| && forall k :: from <= k < |log| ==> since <= log[k].at && k !in lost
    ensures Kept(log, since, lost) == Kept(log[..from], since, lost) + Frames(log[from..])
  {
    var n := |log| - 1;
    if from == |log| {
      assert log[..from] == log && Frames(log[from..]) == [];
    } else {
      var front := log[..n];
      KeptTail(front, since, lost, from);
      assert front[..from] == log[..from];
      assert Frames(log[from..]) == Frames(front[from..]) + [log[n].frame];
      Regroup(Kept(log[..from], since, lost), Frames(front[from..]), [log[n].frame]);
    }
  }

  /** What is not missed is kept. */
  lemma {:induction false} MissedOrKept(log: seq<Stamped>, since: int, lost: set<int>)
    ensures |Kept(log, since, lost)| + |Missed(log, since, lost)| == |Since(log, since)|
    ensures Missed(log, since, lost) == [] ==> Kept(log, since, lost) == Since(log, since)
  {
    if |log| > 0 { MissedOrKept(log[..|log| - 1], since, lost); }
  }

  lemma LastNAppend<T>(s: seq<T>, e: T, n: nat)
    requires n > 0
    ensures LastN(LastN(s, n) + [e], n) == LastN(s + [e], n)
  {}

  lemma Regroup(a: seq<Frame>, b: seq<Frame>, c: seq<Frame>)
    ensures (a + b) + c == a + (b + c)
  {}

  // ---- A frame produced ----------------------------------------------------

  lemma {:induction false} ProduceRemembers(s: State, now: int, frame: Frame)
    requires s.recent == LastN(Remembered(s.log), RECENT_MAX)
    ensures Produce(s, now, frame).recent == LastN(Remembered(Produce(s, now, frame).log), RECENT_MAX)
  {
    var e := Stamped(now, frame);
    LogAppend(s.log, e, 0);
    if frame.remembered { LastNAppend(Remembered(s.log), e, RECENT_MAX); }
  }

  lemma ProduceAscends(s: State, was: int, now: int, frame: Frame)
    requires ClockBelow(s.log, was) && Ascending(s.log) && was < now
    ensures ClockBelow(Produce(s, now, frame).log, now) && Ascending(Produce(s, now, frame).log)
  {}

  /** A buffer that is the end of the log stays so, whether the frame fits or pushes the first one out. */
  lemma {:induction false} EndOfLog(log: seq<Stamped>, buffer: seq<Frame>, e: Stamped, cap: nat)
    requires |buffer| <= |log| && |buffer| <= cap && cap > 0
    requires buffer == Frames(log[|log| - |buffer|..])
    ensures var b := LastN(buffer + [e.frame], cap);
      |b| <= |log| + 1 && |b| == (if |buffer| == cap then cap else |buffer| + 1)
      && b == Frames((log + [e])[|log| + 1 - |b|..])
  {
    var j := |log| - |buffer|;
    assert (log + [e])[j..] == log[j..] + [e];
    assert Frames((log + [e])[j..]) == buffer + [e.frame];
    if |buffer| == cap {
      assert LastN(buffer + [e.frame], cap) == (buffer + [e.frame])[1..];
      assert (log + [e])[j + 1..] == (log + [e])[j..][1..];
    }
  }

  /** Where the buffer begins moves by the frame a full one pushes out, and by one the socket is sent. */
  lemma {:induction false} ProduceHolds(s: State, now: int, frame: Frame)
    requires BufferOk(s) && (s.sink.Socket? ==> s.buffer == [])
    ensures BufferOk(Produce(s, now, frame))
    ensures Produce(s, now, frame).Held() ==
      s.Held() + (if s.sink.Socket? || |s.buffer| == DETACHED_BUFFER_MAX then 1 else 0)
  {
    EndOfLog(s.log, s.buffer, Stamped(now, frame), DETACHED_BUFFER_MAX);
    assert s.sink.Socket? ==> Produce(s, now, frame).log[|s.log| + 1..] == [];
  }

  /** A frame held back, or pushing another out, leaves what was kept before the buffer alone. */
  lemma {:induction false} ProduceBehind(s: State, now: int, frame: Frame, since: int)
    requires BufferOk(s) && !s.sink.Socket?
    ensures var t := Produce(s, now, frame);
      t.Held() <= |t.log| && 0 <= t.Held()
      && Kept(t.log[..t.Held()], since, t.lost) == Kept(s.log[..s.Held()], since, s.lost)
  {
    var t, j := Produce(s, now, frame), s.Held();
    if |s.buffer| == DETACHED_BUFFER_MAX {
      assert t.log[..j + 1][..j] == s.log[..j];
      KeptLosing(s.log[..j], since, s.lost, j);
    } else {
      assert t.log[..j] == s.log[..j];
    }
  }

  /** A frame sent at once is kept. */
  lemma {:induction false} ProduceSent(s: State, now: int, frame: Frame, since: int)
    requires BufferOk(s) && s.sink.Socket? && s.buffer == [] && since <= now
    ensures var t := Produce(s, now, frame);
      t.Held() == |t.log| && Kept(t.log[..t.Held()], since, t.lost) == Kept(s.log[..s.Held()], since, s.lost) + [frame]
  {
    var t, n := Produce(s, now, frame), |s.log|;
    assert t.log[..n + 1][..n] == s.log[..n];
  }

  lemma ProduceBufferedFrom(s: State, now: int, frame: Frame, since: int)
    requires BufferOk(s) && (s.sink.Socket? ==> s.buffer == []) && BufferedFrom(s, since) && since <= now
    ensures |Produce(s, now, frame).buffer| <= |Produce(s, now, frame).log|
    ensures BufferedFrom(Produce(s, now, frame), since)
  {}

  lemma {:induction false} ReplayedStays(log: seq<Stamped>, e: Stamped, r: Resumption)
    requires r.logged <= |log|
    ensures Replayed(log + [e], r) == Replayed(log, r)
  {
    assert (log + [e])[..r.logged] == log[..r.logged];
  }

  lemma {:induction false} ProduceDelivers(s: State, was: int, now: int, frame: Frame, r: Resumption)
    requires BufferOk(s) && SinkOk(s, was) && was < now && !s.sink.Detached? && Delivers(s, r, was)
    ensures Delivers(Produce(s, now, frame), r, now)
  {
    ReplayedStays(s.log, Stamped(now, frame), r);
    ProduceBufferedFrom(s, now, frame, r.givenUp);
    if s.sink.Socket? {
      ProduceSent(s, now, frame, r.givenUp);
      assert (s.wire + [frame]) + s.pending == (s.wire + s.pending) + [frame];
      Regroup(Replayed(s.log, r), Kept(s.log[..s.Held()], r.givenUp, s.lost), [frame]);
    } else {
      ProduceBehind(s, now, frame, r.givenUp);
    }
  }

  lemma {:induction false} ProduceSinkOk(s: State, was: int, now: int, frame: Frame)
    requires BufferOk(s) && SinkOk(s, was) && was < now
    ensures BufferOk(Produce(s, now, frame)) && SinkOk(Produce(s, now, frame), now)
  {
    ProduceHolds(s, now, frame);
    if s.sink.Detached? {
      ProduceBufferedFrom(s, now, frame, s.sink.since);
      ProduceBehind(s, now, frame, s.sink.since);
    }
  }

  lemma {:induction false} ProduceKeeps(s: State, was: int, now: int, frame: Frame)
    requires Inv(s, was) && was < now
    ensures Inv(Produce(s, now, frame), now)
  {
    ProduceRemembers(s, now, frame);
    ProduceAscends(s, was, now, frame);
    ProduceSinkOk(s, was, now, frame);
    if !s.sink.Detached? && s.resume.Some? { ProduceDelivers(s, was, now, frame, s.resume.value); }
  }

  // ---- The other steps -----------------------------------------------------

  lemma {:induction false} DetachSinkOk(s: State, was: int, now: int)
    requires BufferOk(s) && SinkOk(s, was) && ClockBelow(s.log, was) && was < now && s.sink.Socket?
    ensures SinkOk(Detach(s, now), now)
  {
    KeptNothing(s.log[..s.Held()], now, s.lost);
  }

  lemma {:induction false} DetachKeeps(s: State, was: int, now: int)
    requires Inv(s, was) && was < now && s.sink.Socket?
    ensures Inv(Detach(s, now), now)
  {
    DetachSinkOk(s, was, now);
  }

  lemma {:induction false} RebindReplays(s: State, now: int, replayRecent: bool)
    requires s.recent == LastN(Remembered(s.log), RECENT_MAX)
    ensures var t := Rebind(s, now, replayRecent); t.pending == Replayed(s.log, t.resume.value)
  {
    assert s.log[..|s.log|] == s.log;
  }

  /** A resume replays the window, and nothing since is yet kept from it but what is buffered. */
  lemma {:induction false} RebindDelivering(s: State, was: int, now: int, replayRecent: bool)
    requires BufferOk(s) && SinkOk(s, was) && ClockBelow(s.log, was) && was < now && !s.sink.CatchingUp?
    requires s.recent == LastN(Remembered(s.log), RECENT_MAX)
    ensures var t := Rebind(s, now, replayRecent); Delivers(t, t.resume.value, now)
  {
    var t := Rebind(s, now, replayRecent);
    RebindReplays(s, now, replayRecent);
    if !s.sink.Detached? { KeptNothing(s.log[..s.Held()], now, s.lost); }
    assert [] + t.pending == t.pending + [];
  }

  lemma {:induction false} RebindKeeps(s: State, was: int, now: int, replayRecent: bool)
    requires Inv(s, was) && was < now && !s.sink.CatchingUp?
    ensures Inv(Rebind(s, now, replayRecent), now)
  {
    RebindDelivering(s, was, now, replayRecent);
  }

  lemma {:induction false} SendKeeps(s: State, was: int, now: int)
    requires Inv(s, was) && was <= now && s.sink.CatchingUp? && s.pending != []
    ensures Inv(SendOne(s), now)
  {
    var t := SendOne(s);
    assert t.wire + t.pending == s.wire + s.pending;
  }

  lemma {:induction false} BatchDelivers(s: State, now: int, r: Resumption)
    requires BufferOk(s) && s.pending == [] && Delivers(s, r, now)
    ensures Delivers(NextBatch(s), r, now)
  {
    var t := NextBatch(s);
    assert s.log[..|s.log|] == s.log;
    if s.buffer != [] {
      KeptTail(s.log, r.givenUp, s.lost, s.Held());
      Regroup(Replayed(s.log, r), Kept(s.log[..s.Held()], r.givenUp, s.lost), s.buffer);
      assert s.wire == s.wire + s.pending;
    }
  }

  lemma {:induction false} BatchKeeps(s: State, was: int, now: int)
    requires Inv(s, was) && was <= now && s.sink.CatchingUp? && s.pending == []
    ensures Inv(NextBatch(s), now)
  {
    BatchDelivers(s, was, s.resume.value);
    assert s.log[|s.log|..] == [];
  }

  lemma {:induction false} StepKeeps(s: State, e: Event, was: int, now: int)
    requires Inv(s, was) && was < now && Enabled(s, e)
    ensures Inv(Step(s, e, now), now)
  {
    match e
    case Frame_(frame) => ProduceKeeps(s, was, now, frame);
    case Drop => DetachKeeps(s, was, now);
    case Resume(replayRecent) => RebindKeeps(s, was, now, replayRecent);
    case Sent => SendKeeps(s, was, now);
    case Batch => BatchKeeps(s, was, now);
  }

  lemma {:induction false} RunsKeep(s: State, now: int, run: seq<(Event, int)>, end: State) returns (last: int)
    requires Inv(s, now) && IsRun(s, now, run, end)
    ensures Inv(end, last)
    decreases |run|
  {
    last := now;
    if |run| > 0 {
      StepKeeps(s, run[0].0, now, run[0].1);
      last := RunsKeep(Step(s, run[0].0, run[0].1), run[0].1, run[1..], end);
    }
  }

  // ---- What a resumed socket gets ------------------------------------------

  /**
   * The frames a resume promises, in production order and once each: the finals, translations and
   * cues of the window before the old socket was given up, and everything from then on.
   */
  function Promised(log: seq<Stamped>, givenUp: int): seq<Frame> {
    if |log| == 0 then [] else
      var e := log[|log| - 1];
      Promised(log[..|log| - 1], givenUp) +
        (if givenUp <= e.at || (e.frame.remembered && givenUp - RECENT_WINDOW_MS <= e.at) then [e.frame] else [])
  }

  /** The window's frames that the cap on remembered frames had already pushed out. */
  function Forgotten(log: seq<Stamped>, r: Resumption): seq<Frame>
    requires r.logged <= |log|
  {
    var all := Remembered(log[..r.logged]);
    Select(all[..|all| - |LastN(all, RECENT_MAX)|], r.givenUp - RECENT_WINDOW_MS, r.givenUp)
  }

  lemma {:induction false} SelectSplit(a: seq<Stamped>, b: seq<Stamped>, lo: int, hi: int)
    ensures Select(a + b, lo, hi) == Select(a, lo, hi) + Select(b, lo, hi)
  {
    if |b| == 0 {
      assert a + b == a;
    } else {
      SelectSplit(a, b[..|b| - 1], lo, hi);
      assert (a + b)[..|a + b| - 1] == a + b[..|b| - 1];
    }
  }

  lemma {:induction false} SelectNothing(s: seq<Stamped>, lo: int, hi: int)
    requires forall k :: 0 <= k < |s| ==> hi <= s[k].at
    ensures Select(s, lo, hi) == []
  {
    if |s| > 0 { SelectNothing(s[..|s| - 1], lo, hi); }
  }

  lemma {:induction false} RememberedSplit(a: seq<Stamped>, b: seq<Stamped>)
    ensures Remembered(a + b) == Remembered(a) + Remembered(b)
  {
    if |b| == 0 {
      assert a + b == a;
    } else {
      RememberedSplit(a, b[..|b| - 1]);
      assert (a + b)[..|a + b| - 1] == a + b[..|b| - 1];
    }
  }

  lemma {:induction false} RememberedLater(b: seq<Stamped>, t: int)
    requires forall k :: 0 <= k < |b| ==> t < b[k].at
    ensures forall k :: 0 <= k < |Remembered(b)| ==> t < Remembered(b)[k].at
  {
    if |b| > 0 { RememberedLater(b[..|b| - 1], t); }
  }

  lemma {:induction false} SelectAppend(s: seq<Stamped>, e: Stamped, lo: int, hi: int)
    ensures Select(s + [e], lo, hi) == Select(s, lo, hi) + (if lo <= e.at < hi then [e.frame] else [])
  {
    assert (s + [e])[..|s|] == s;
  }

  /** One more log entry: what it adds to the window's remembered frames. */
  lemma {:induction false} WindowAppend(front: seq<Stamped>, e: Stamped, lo: int, g: int)
    ensures Select(Remembered(front + [e]), lo, g) ==
            Select(Remembered(front), lo, g) + (if e.frame.remembered && lo <= e.at < g then [e.frame] else [])
  {
    var all := Remembered(front);
    LogAppend(front, e, g);
    if e.frame.remembered {
      SelectAppend(all, e, lo, g);
    } else {
      assert all + [] == all;
    }
  }

  lemma {:induction false} PromisedLast(front: seq<Stamped>, e: Stamped, lo: int, g: int)
    requires lo == g - RECENT_WINDOW_MS
    ensures Promised(front + [e], g) ==
      Promised(front, g) + (if g <= e.at || (e.frame.remembered && lo <= e.at) then [e.frame] else [])
  {
    assert (front + [e])[..|front|] == front;
  }

  /** One more log entry: what it adds to the promise. */
  lemma {:induction false} PromisedAppend(front: seq<Stamped>, e: Stamped, lo: int, g: int)
    requires lo == g - RECENT_WINDOW_MS && (e.at < g ==> Since(front, g) == [])
    requires Promised(front, g) == Select(Remembered(front), lo, g) + Since(front, g)
    ensures Promised(front + [e], g) == Select(Remembered(front + [e]), lo, g) + Since(front + [e], g)
  {
    var window, since := Select(Remembered(front), lo, g), Since(front, g);
    PromisedLast(front, e, lo, g);
    WindowAppend(front, e, lo, g);
    LogAppend(front, e, g);
    if g <= e.at { Regroup(window, since, [e.frame]); } else { assert since == []; }
  }

  /** In an ascending log the promise is the window's remembered frames, then everything since. */
  lemma {:induction false} PromisedSplits(log: seq<Stamped>, g: int)
    requires Ascending(log)
    ensures Promised(log, g) == Select(Remembered(log), g - RECENT_WINDOW_MS, g) + Since(log, g)
  {
    if |log| > 0 {
      var front, e := log[..|log| - 1], log[|log| - 1];
      assert log == front + [e];
      PromisedSplits(front, g);
      if e.at < g { SinceNothing(front, g); }
      PromisedAppend(front, e, g - RECENT_WINDOW_MS, g);
    }
  }

  /** The logged frames after a resume began are none of the window's. */
  lemma {:induction false} WindowFixed(log: seq<Stamped>, r: Resumption)
    requires r.logged <= |log| && forall k :: r.logged <= k < |log| ==> r.givenUp < log[k].at
    ensures Select(Remembered(log), r.givenUp - RECENT_WINDOW_MS, r.givenUp) ==
            Select(Remembered(log[..r.logged]), r.givenUp - RECENT_WINDOW_MS, r.givenUp)
  {
    var a, b, lo := log[..r.logged], log[r.logged..], r.givenUp - RECENT_WINDOW_MS;
    assert log == a + b;
    RememberedSplit(a, b);
    RememberedLater(b, r.givenUp);
    SelectSplit(Remembered(a), Remembered(b), lo, r.givenUp);
    SelectNothing(Remembered(b), lo, r.givenUp);
  }

  /** The window is what the cap made the session forget, then what the resume replays. */
  lemma {:induction false} WindowReplayed(log: seq<Stamped>, r: Resumption)
    requires r.logged <= |log| && r.replayRecent
    requires forall k :: r.logged <= k < |log| ==> r.givenUp < log[k].at
    ensures Select(Remembered(log), r.givenUp - RECENT_WINDOW_MS, r.givenUp) == Forgotten(log, r) + Replayed(log, r)
  {
    WindowFixed(log, r);
    CapSplits(Remembered(log[..r.logged]), r.givenUp - RECENT_WINDOW_MS, r.givenUp);
  }

  /** The promise is what was forgotten, then what the resume replays, then everything since. */
  lemma {:induction false} PromisedIsDelivered(log: seq<Stamped>, r: Resumption)
    requires Ascending(log) && r.logged <= |log| && r.replayRecent
    requires forall k :: r.logged <= k < |log| ==> r.givenUp < log[k].at
    ensures Promised(log, r.givenUp) == Forgotten(log, r) + (Replayed(log, r) + Since(log, r.givenUp))
  {
    PromisedSplits(log, r.givenUp);
    WindowReplayed(log, r);
    Regroup(Forgotten(log, r), Replayed(log, r), Since(log, r.givenUp));
  }

  lemma {:induction false} CapSplits(all: seq<Stamped>, lo: int, hi: int)
    ensures Select(all, lo, hi) ==
            Select(all[..|all| - |LastN(all, RECENT_MAX)|], lo, hi) + Select(LastN(all, RECENT_MAX), lo, hi)
  {
    var kept := LastN(all, RECENT_MAX);
    var lost := all[..|all| - |kept|];
    assert all == lost + kept;
    SelectSplit(lost, kept, lo, hi);
  }

  /** Two wholes with the same middle are equal exactly when nothing was forgotten and nothing missed. */
  lemma EqualIff(forgotten: seq<Frame>, replayed: seq<Frame>, since: seq<Frame>, kept: seq<Frame>, missed: seq<Frame>)
    requires |kept| + |missed| == |since| && (missed == [] ==> kept == since)
    ensures replayed + kept == forgotten + (replayed + since) <==> forgotten == [] && missed == []
  {
    if forgotten == [] && missed == [] { assert forgotten + (replayed + since) == replayed + since; }
    if forgotten != [] || missed != [] {
      assert |replayed + kept| != |forgotten + (replayed + since)|;
    }
  }

  /** What a bound socket has been sent, in a state every run leads to. */
  lemma {:induction false} BoundSocketHas(s: State, now: int)
    requires Inv(s, now) && s.sink.Socket? && s.resume.Some?
    ensures var r := s.resume.value;
      && r.logged <= |s.log|
      && s.wire == Replayed(s.log, r) + Kept(s.log, r.givenUp, s.lost)
      && (r.replayRecent ==> (s.wire == Promised(s.log, r.givenUp) <==>
          Forgotten(s.log, r) == [] && Missed(s.log, r.givenUp, s.lost) == []))
  {
    var r := s.resume.value;
    assert s.log[..|s.log|] == s.log && s.wire == s.wire + s.pending;
    if r.replayRecent {
      PromisedIsDelivered(s.log, r);
      MissedOrKept(s.log, r.givenUp, s.lost);
      EqualIff(Forgotten(s.log, r), Replayed(s.log, r), Since(s.log, r.givenUp),
        Kept(s.log, r.givenUp, s.lost), Missed(s.log, r.givenUp, s.lost));
    }
  }

  /**
   * After any run, a socket bound by a resume that replays has been sent exactly the promised frames,
   * in order and once each, if and only if none of the window's frames had been pushed out of the
   * remembered ones and none since had been pushed out of the buffer.
   */
  lemma {:induction false} ResumedSocketGetsPromise(run: seq<(Event, int)>, s: State)
    requires IsRun(INIT, 0, run, s) && s.sink.Socket? && s.resume.Some? && s.resume.value.replayRecent
    ensures s.resume.value.logged <= |s.log|
    ensures s.wire == Promised(s.log, s.resume.value.givenUp) <==>
      Forgotten(s.log, s.resume.value) == [] && Missed(s.log, s.resume.value.givenUp, s.lost) == []
  {
    var now := RunsKeep(INIT, 0, run, s);
    BoundSocketHas(s, now);
  }

  /**
   * While it catches up, the new socket has been sent a prefix of what it will get, the replay and
   * then everything since but what the buffer pushed out: nothing overtakes, and nothing else is missed.
   */
  lemma {:induction false} NothingOvertakes(run: seq<(Event, int)>, s: State)
    requires IsRun(INIT, 0, run, s) && !s.sink.Detached? && s.resume.Some?
    ensures s.resume.value.logged <= |s.log|
    ensures s.wire <= Replayed(s.log, s.resume.value) + Kept(s.log, s.resume.value.givenUp, s.lost)
    ensures s.sink.Socket? ==>
      s.wire == Replayed(s.log, s.resume.value) + Kept(s.log, s.resume.value.givenUp, s.lost)
  {
    var now := RunsKeep(INIT, 0, run, s);
    var r := s.resume.value;
    var kept := Kept(s.log[..s.Held()], r.givenUp, s.lost);
    KeptTail(s.log, r.givenUp, s.lost, s.Held());
    Regroup(Replayed(s.log, r), kept, s.buffer);
    assert s.wire <= (s.wire + s.pending) + s.buffer;
    if s.sink.Socket? { BoundSocketHas(s, now); }
  }
}
