/** The session object that sends, detaches and rebinds, proved against the steps of ResumeFrames. */
module ResumeSession {
  import opened Prelude
  import opened ResumeFrames
  import opened ResumeDelivery

  /** The frames of `arrivals` produced one after the other, each at its own time. */
  function ProduceAll(s: State, arrivals: seq<Stamped>): State
    decreases |arrivals|
  {
    if |arrivals| == 0 then s else ProduceAll(Produce(s, arrivals[0].at, arrivals[0].frame), arrivals[1..])
  }

  /** A rebind's sends one by one until it has caught up; `during[k]` is produced while the k-th send waits. */
  function CatchUp(s: State, during: seq<seq<Stamped>>): State
    decreases |during|, |s.pending| + |s.buffer|, |s.buffer|
  {
    if |s.pending| > 0 then
      if |during| == 0 then CatchUp(SendOne(s), during)
      else CatchUp(ProduceAll(SendOne(s), during[0]), during[1..])
    else if |s.buffer| > 0 then CatchUp(NextBatch(s), during)
    else NextBatch(s)
  }

  class Connection {
    var recent: seq<Stamped>
    var detachedBuffer: seq<Frame>
    var detached: bool
    var detachedAt: int
    /** Sends go to the newest socket rather than to the buffer. */
    var bound: bool
    /** What the newest socket was sent. */
    var socket: seq<Frame>
    ghost var log: seq<Stamped>
    ghost var lost: set<int>
    ghost var pending: seq<Frame>
    ghost var resume: Option<Resumption>

    ghost predicate Valid()
      reads this
    {
      detached ==> !bound
    }

    ghost function View(): State
      reads this
    {
      State(log, lost, recent, detachedBuffer,
            if detached then Detached(detachedAt) else if bound then Socket else CatchingUp,
            socket, pending, resume)
    }

    constructor ()
      ensures Valid() && View() == INIT
    {
      recent, detachedBuffer, detached, detachedAt, bound, socket := [], [], false, 0, true, [];
      log, lost, pending, resume := [], {}, [], None;
    }

    /** `_buffer_send`: the buffer keeps the most recent frames up to its cap. */
    method BufferSend(frame: Frame)
      modifies this`detachedBuffer
      ensures detachedBuffer == LastN(old(detachedBuffer) + [frame], DETACHED_BUFFER_MAX)
    {
      detachedBuffer := detachedBuffer + [frame];
      if |detachedBuffer| > DETACHED_BUFFER_MAX {
        detachedBuffer := detachedBuffer[|detachedBuffer| - DETACHED_BUFFER_MAX..];
      }
    }

    /** `_remember`: a bounded deque of what was sent and when. */
    method Remember(now: int, frame: Frame)
      modifies this`recent
      ensures recent == LastN(old(recent) + [Stamped(now, frame)], RECENT_MAX)
    {
      recent := recent + [Stamped(now, frame)];
      if |recent| > RECENT_MAX {
        recent := recent[|recent| - RECENT_MAX..];
      }
    }

    method Send(now: int, frame: Frame)
      requires Valid()
      modifies this
      ensures Valid() && View() == Produce(old(View()), now, frame)
    {
      if !bound && |detachedBuffer| >= DETACHED_BUFFER_MAX {
        lost := lost + {|log| - |detachedBuffer|};
      }
      log := log + [Stamped(now, frame)];
      if frame.remembered {
        Remember(now, frame);
      }
      if bound {
        socket := socket + [frame];
      } else {
        BufferSend(frame);
      }
    }

    method SendAll(arrivals: seq<Stamped>)
      requires Valid()
      modifies this
      ensures Valid() && View() == ProduceAll(old(View()), arrivals)
    {
      assert arrivals[0..] == arrivals;
      for i := 0 to |arrivals|
        invariant Valid() && ProduceAll(View(), arrivals[i..]) == ProduceAll(old(View()), arrivals)
      {
        assert arrivals[i..][1..] == arrivals[i + 1..];
        Send(arrivals[i].at, arrivals[i].frame);
      }
    }

    /** `detach`: a session already detached keeps the time it was given up. */
    method DetachNow(now: int)
      requires Valid()
      modifies this
      ensures Valid()
      ensures View() == if old(detached) then old(View()) else Detach(old(View()), now)
    {
      if detached {
        return;
      }
      detached, detachedAt, bound := true, now, false;
    }

    /** One awaited send: the frame goes out, and what `during` holds next is produced meanwhile. */
    method AwaitSend(frame: Frame, during: seq<seq<Stamped>>) returns (rest: seq<seq<Stamped>>)
      requires Valid() && |pending| > 0 && frame == pending[0]
      modifies this
      ensures Valid() && CatchUp(View(), rest) == CatchUp(old(View()), during)
      ensures |during| > 0 ==> |rest| < |during|
      ensures |during| == 0 ==> rest == during && pending == old(pending)[1..] && detachedBuffer == old(detachedBuffer)
      ensures pending == old(pending)[1..] && bound == old(bound) && detached == old(detached)
    {
      socket := socket + [frame];
      pending := pending[1..];
      if |during| == 0 {
        return during;
      }
      SendAllPending(View(), during[0]);
      SendAll(during[0]);
      return during[1..];
    }

    /**
     * `rebind`: hold new frames, replay the remembered ones of the window, drain the buffer until it
     * stays empty, then bind the new socket.
     */
    method RebindTo(now: int, replayRecent: bool, during: seq<seq<Stamped>>)
      requires Valid() && (detached || bound) && pending == []
      modifies this
      ensures Valid() && bound && View() == CatchUp(Rebind(old(View()), now, replayRecent), during)
    {
      var givenUpAt := if detached then detachedAt else now;
      ghost var start := Rebind(View(), now, replayRecent);
      var snapshot := if replayRecent then recent else [];
      bound, detached, socket := false, false, [];
      pending, resume := start.pending, Some(Resumption(givenUpAt, replayRecent, |log|));
      assert View() == start;
      var rest := Replay(snapshot, givenUpAt, during);
      while |detachedBuffer| > 0
        invariant Valid() && !bound && !detached && |pending| == 0
        invariant CatchUp(View(), rest) == CatchUp(start, during)
        decreases |rest|, |detachedBuffer|
      {
        var buffered := detachedBuffer;
        ghost var before := |rest|;
        detachedBuffer, pending := [], buffered;
        assert buffered[0..] == buffered;
        for i := 0 to |buffered|
          invariant Valid() && !bound && !detached && pending == buffered[i..]
          invariant CatchUp(View(), rest) == CatchUp(start, during)
          invariant |rest| < before || (|rest| == before && |detachedBuffer| == 0)
        {
          rest := AwaitSend(buffered[i], rest);
        }
      }
      bound := true;
    }

    /** The replay of `snapshot`: its frames of the window, each sent in turn. */
    method Replay(snapshot: seq<Stamped>, givenUpAt: int, during: seq<seq<Stamped>>) returns (rest: seq<seq<Stamped>>)
      requires Valid() && !bound && !detached
      requires pending == Select(snapshot, givenUpAt - RECENT_WINDOW_MS, givenUpAt)
      modifies this
      ensures Valid() && !bound && !detached && |pending| == 0
      ensures CatchUp(View(), rest) == CatchUp(old(View()), during)
    {
      rest := during;
      assert snapshot[0..] == snapshot;
      for i := 0 to |snapshot|
        invariant Valid() && !bound && !detached
        invariant pending == Select(snapshot[i..], givenUpAt - RECENT_WINDOW_MS, givenUpAt)
        invariant CatchUp(View(), rest) == CatchUp(old(View()), during)
      {
        SelectHead(snapshot[i..], givenUpAt - RECENT_WINDOW_MS, givenUpAt);
        assert snapshot[i..][1..] == snapshot[i + 1..];
        if givenUpAt - RECENT_WINDOW_MS <= snapshot[i].at < givenUpAt {
          rest := AwaitSend(snapshot[i].frame, rest);
        }
      }
    }
  }

  lemma {:induction false} SelectHead(s: seq<Stamped>, lo: int, hi: int)
    requires |s| > 0
    ensures Select(s, lo, hi) == (if lo <= s[0].at < hi then [s[0].frame] else []) + Select(s[1..], lo, hi)
  {
    var head := s[..1];
    assert s == head + s[1..];
    SelectSplit(head, s[1..], lo, hi);
    assert head[..0] == [];
  }

  /** Frames produced while a rebind catches up touch neither its batch nor where sends go. */
  lemma {:induction false} SendAllPending(s: State, arrivals: seq<Stamped>)
    ensures ProduceAll(s, arrivals).pending == s.pending && ProduceAll(s, arrivals).sink == s.sink
    ensures ProduceAll(s, arrivals).resume == s.resume && s.log <= ProduceAll(s, arrivals).log
    decreases |arrivals|
  {
    if |arrivals| > 0 {
      var t := Produce(s, arrivals[0].at, arrivals[0].frame);
      SendAllPending(t, arrivals[1..]);
      assert s.log <= t.log;
    }
  }

  // ---- A whole rebind ------------------------------------------------------

  /** The clock strictly increases over the arrivals, and ends at `ClockAfter`. */
  predicate Ticks(now: int, arrivals: seq<Stamped>)
    decreases |arrivals|
  {
    |arrivals| > 0 ==> now < arrivals[0].at && Ticks(arrivals[0].at, arrivals[1..])
  }

  function ClockAfter(now: int, arrivals: seq<Stamped>): int {
    if |arrivals| == 0 then now else arrivals[|arrivals| - 1].at
  }

  predicate TicksThrough(now: int, during: seq<seq<Stamped>>)
    decreases |during|
  {
    |during| > 0 ==> Ticks(now, during[0]) && TicksThrough(ClockAfter(now, during[0]), during[1..])
  }

  lemma {:induction false} ProduceAllKeeps(s: State, now: int, arrivals: seq<Stamped>, t: State, later: int)
    requires Inv(s, now) && Ticks(now, arrivals)
    requires t == ProduceAll(s, arrivals) && later == ClockAfter(now, arrivals)
    ensures Inv(t, later)
    decreases |arrivals|
  {
    if |arrivals| > 0 {
      ProduceKeeps(s, now, arrivals[0].at, arrivals[0].frame);
      ProduceAllKeeps(Produce(s, arrivals[0].at, arrivals[0].frame), arrivals[0].at, arrivals[1..], t, later);
    }
  }

  /** Catching up ends with the new socket bound and every delivery promise kept. */
  lemma {:induction false} CatchUpKeeps(s: State, now: int, during: seq<seq<Stamped>>) returns (last: int)
    requires Inv(s, now) && s.sink.CatchingUp? && TicksThrough(now, during)
    ensures Inv(CatchUp(s, during), last)
    ensures CatchUp(s, during).sink.Socket? && CatchUp(s, during).resume == s.resume && s.log <= CatchUp(s, during).log
    decreases |during|, |s.pending| + |s.buffer|, |s.buffer|
  {
    if |s.pending| > 0 {
      SendKeeps(s, now, now);
      if |during| == 0 {
        last := CatchUpKeeps(SendOne(s), now, during);
      } else {
        var t, later := ProduceAll(SendOne(s), during[0]), ClockAfter(now, during[0]);
        ProduceAllKeeps(SendOne(s), now, during[0], t, later);
        SendAllPending(SendOne(s), during[0]);
        last := CatchUpKeeps(t, later, during[1..]);
      }
    } else {
      BatchKeeps(s, now, now);
      last := now;
      if |s.buffer| > 0 {
        last := CatchUpKeeps(NextBatch(s), now, during);
      }
    }
  }

  /**
   * A whole rebind of a session in a reachable state, whatever is produced while it sends: the new
   * socket holds the replay and then everything since but what the buffer pushed out, and nothing else.
   */
  lemma {:induction false} RebindDelivers(s: State, was: int, now: int, replayRecent: bool, during: seq<seq<Stamped>>)
    requires Inv(s, was) && was < now && !s.sink.CatchingUp? && TicksThrough(now, during)
    ensures var t := CatchUp(Rebind(s, now, replayRecent), during);
            var r := Resumption(if s.sink.Detached? then s.sink.since else now, replayRecent, |s.log|);
            && s.log <= t.log
            && t.wire == Replayed(t.log, r) + Kept(t.log, r.givenUp, t.lost)
            && (replayRecent ==> (t.wire == Promised(t.log, r.givenUp) <==>
                Forgotten(t.log, r) == [] && Missed(t.log, r.givenUp, t.lost) == []))
  {
    RebindKeeps(s, was, now, replayRecent);
    var last := CatchUpKeeps(Rebind(s, now, replayRecent), now, during);
    BoundSocketHas(CatchUp(Rebind(s, now, replayRecent), during), last);
  }
}
