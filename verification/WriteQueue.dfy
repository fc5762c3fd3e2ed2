/** The session's held writes as its methods update them, proved against the steps of Writes. */
module WriteQueue {
  import opened Prelude
  import opened Writes

  /** How one store call ends, and the writes queued while it ran. */
  datatype Call = Call(outcome: Ending, meanwhile: seq<nat>)

  function SubmitAll(s: State, writes: seq<nat>): State
    decreases |writes|
  {
    if |writes| == 0 then s else SubmitAll(Submit(s, writes[0]), writes[1..])
  }

  lemma {:induction false} SubmittedStays(s: State, writes: seq<nat>, i: nat)
    requires i < |s.tasks| && s.tasks[i].Running? && |s.queue| > 0
    ensures i < |SubmitAll(s, writes).tasks| && SubmitAll(s, writes).tasks[i] == s.tasks[i]
    ensures SubmitAll(s, writes).queue == s.queue + writes
    decreases |writes|
  {
    if |writes| > 0 {
      SubmittedStays(Submit(s, writes[0]), writes[1..], i);
      assert s.queue + writes == (s.queue + [writes[0]]) + writes[1..];
    } else {
      assert s.queue + writes == s.queue;
    }
  }

  /** Task i's flush from the attempt it is in to its end; past `calls`, every call stores. */
  ghost function Drain(s: State, i: nat, calls: seq<Call>): State
    requires i < |s.tasks| && (s.tasks[i].Running? ==> |s.queue| > 0)
    decreases |calls|, |s.queue|
  {
    if !s.tasks[i].Running? then s
    else if |calls| == 0 then Drain(Tried(s, i, Stored), i, calls)
    else
      SubmittedStays(s, calls[0].meanwhile, i);
      Drain(Tried(SubmitAll(s, calls[0].meanwhile), i, calls[0].outcome), i, calls[1..])
  }

  // ---- What a flush takes off ----------------------------------------------

  /** Every write queued while the first n calls ran. */
  function Arrivals(calls: seq<Call>, n: nat): seq<nat>
    requires n <= |calls|
  {
    if n == 0 then [] else calls[0].meanwhile + Arrivals(calls[1..], n - 1)
  }

  /** How the k-th call ended; past `calls`, every call stores. */
  function EndingOf(calls: seq<Call>, k: nat): Ending {
    if k < |calls| then calls[k].outcome else Stored
  }

  /** The first n of `all` have been taken off, none held, each recorded as its call ended. */
  ghost predicate TookOff(before: seq<Popped>, after: seq<Popped>, all: seq<nat>, calls: seq<Call>, n: nat) {
    && n <= |all| && |after| == |before| + n && after[..|before|] == before
    && forall k :: 0 <= k < n ==> TookAt(before, after, all, calls, k)
  }

  predicate TookAt(before: seq<Popped>, after: seq<Popped>, all: seq<nat>, calls: seq<Call>, k: nat)
    requires k < |all| && |before| + k < |after|
  {
    after[|before| + k] == Popped(all[k], EndingOf(calls, k).Stored?) && !EndingOf(calls, k).Held?
  }

  lemma TookFirst(
    before: seq<Popped>, x: Popped, after: seq<Popped>, all: seq<nat>, calls: seq<Call>, tail: seq<Call>, n: nat)
    requires |all| > 0 && x == Popped(all[0], EndingOf(calls, 0).Stored?) && !EndingOf(calls, 0).Held?
    requires TookOff(before + [x], after, all[1..], tail, n)
    requires tail == if |calls| > 0 then calls[1..] else calls
    ensures TookOff(before, after, all, calls, n + 1)
  {
    assert after[..|before| + 1][..|before|] == before && after[..|before| + 1][|before|] == x;
    forall k | 0 <= k < n + 1 ensures TookAt(before, after, all, calls, k) {
      if k > 0 {
        assert TookAt(before + [x], after, all[1..], tail, k - 1) && EndingOf(tail, k - 1) == EndingOf(calls, k);
      }
    }
  }

  /** What a whole flush came to: how many writes it took off and how many of the known calls it made. */
  ghost predicate Flushed(s: State, t: State, calls: seq<Call>, taken: nat, made: nat) {
    && made <= |calls|
    && var all := s.queue + Arrivals(calls, made);
    && TookOff(s.popped, t.popped, all, calls, taken) && t.queue == all[taken..]
    && (if t.queue == [] then forall k :: 0 <= k < made ==> !calls[k].outcome.Held?
        else made == taken + 1 && calls[taken].outcome.Held?)
  }

  /** One call that stores or drops the head, and the rest of the flush. */
  lemma FlushedMore(s: State, u: State, t: State, i: nat, calls: seq<Call>, taken: nat, made: nat)
    requires i < |s.tasks| && s.tasks[i].Running? && |s.queue| > 0 && s.tasks[i].write == s.queue[0]
    requires |calls| > 0 && !calls[0].outcome.Held? && Flushed(u, t, calls[1..], taken, made)
    requires u.queue == (s.queue + calls[0].meanwhile)[1..]
    requires u.popped == s.popped + [Popped(s.queue[0], calls[0].outcome.Stored?)]
    ensures Flushed(s, t, calls, taken + 1, made + 1)
  {
    var all := s.queue + Arrivals(calls, made + 1);
    assert all[1..] == u.queue + Arrivals(calls[1..], made);
    TookFirst(s.popped, Popped(s.queue[0], calls[0].outcome.Stored?), t.popped, all, calls, calls[1..], taken);
    assert all[taken + 1..] == all[1..][taken..];
    forall k | 0 <= k < made + 1 && t.queue == [] ensures !calls[k].outcome.Held? {
      if k > 0 { assert calls[1..][k - 1] == calls[k]; }
    }
  }

  lemma {:induction false} SubmittedPops(s: State, writes: seq<nat>)
    ensures SubmitAll(s, writes).popped == s.popped
    decreases |writes|
  {
    if |writes| > 0 { SubmittedPops(Submit(s, writes[0]), writes[1..]); }
  }

  /** A flush whose calls are all known to store: it empties the queue. */
  lemma {:induction false} DrainStores(s: State, i: nat, calls: seq<Call>)
    requires i < |s.tasks| && (s.tasks[i].Running? <==> |s.queue| > 0) && |calls| == 0
    ensures Flushed(s, Drain(s, i, calls), calls, |s.queue|, 0)
    decreases |s.queue|
  {
    var t := Drain(s, i, calls);
    assert s.queue + Arrivals(calls, 0) == s.queue;
    if |s.queue| > 0 {
      var u := Tried(s, i, Stored);
      DrainStores(u, i, calls);
      assert u.queue + Arrivals(calls, 0) == s.queue[1..];
      TookFirst(s.popped, Popped(s.queue[0], true), t.popped, s.queue, calls, calls, |u.queue|);
    }
  }

  lemma {:induction false} DrainTakes(s: State, i: nat, calls: seq<Call>) returns (taken: nat, made: nat)
    requires i < |s.tasks| && s.tasks[i] == Next(s.queue)
    ensures Flushed(s, Drain(s, i, calls), calls, taken, made)
    decreases |calls|
  {
    if |calls| == 0 {
      DrainStores(s, i, calls);
      taken, made := |s.queue|, 0;
    } else if |s.queue| == 0 {
      taken, made := 0, 0;
      assert s.queue + Arrivals(calls, 0) == [];
    } else {
      var v := SubmitAll(s, calls[0].meanwhile);
      SubmittedStays(s, calls[0].meanwhile, i);
      SubmittedPops(s, calls[0].meanwhile);
      var u := Tried(v, i, calls[0].outcome);
      if calls[0].outcome.Held? {
        taken, made := 0, 1;
        assert Arrivals(calls[1..], 0) == [] && s.queue + Arrivals(calls, 1) == v.queue;
      } else {
        taken, made := DrainTakes(u, i, calls[1..]);
        FlushedMore(s, u, Drain(s, i, calls), i, calls, taken, made);
        taken, made := taken + 1, made + 1;
      }
    }
  }

  class Backlog {
    var unsaved: seq<nat>
    var submitted: seq<nat>
    var popped: seq<Popped>
    var tasks: seq<Task>
    var writer: Option<nat>
    var lastHeld: bool
    ghost var ran: seq<Popped>

    ghost function View(): State
      reads this
    {
      State(unsaved, submitted, popped, ran, tasks, writer, lastHeld)
    }

    constructor ()
      ensures View() == NOTHING
    {
      unsaved, submitted, popped, tasks, writer, lastHeld, ran := [], [], [], [], None, false, [];
    }

    /** `_store`. */
    method StoreWrite(write: nat)
      modifies this
      ensures View() == Submit(old(View()), write)
    {
      unsaved := unsaved + [write];
      submitted := submitted + [write];
      if writer.None? || (writer.value < |tasks| && tasks[writer.value].Over?) {
        writer := Some(|tasks|);
        tasks := tasks + [Queued];
      }
    }

    method StoreAll(writes: seq<nat>)
      modifies this
      ensures View() == SubmitAll(old(View()), writes)
    {
      assert writes[0..] == writes;
      for k := 0 to |writes|
        invariant SubmitAll(View(), writes[k..]) == SubmitAll(old(View()), writes)
      {
        assert writes[k..][1..] == writes[k + 1..];
        StoreWrite(writes[k]);
      }
    }

    /** The store call of the first write has ended. */
    method EndCall(i: nat, write: nat, outcome: Ending)
      requires i < |tasks| && tasks[i] == Running(write) && |unsaved| > 0
      modifies this
      ensures View() == Tried(old(View()), i, outcome)
    {
      if outcome.Held? {
        tasks := tasks[i := Over(false)];
        lastHeld := true;
        return;
      }
      popped := popped + [Popped(unsaved[0], outcome.Stored?)];
      ran := ran + [Popped(write, outcome.Stored?)];
      unsaved := unsaved[1..];
      tasks := tasks[i := Next(unsaved)];
      lastHeld := false;
    }

    /**
     * `_flush_writes`, the lock acquired: whatever is queued meanwhile joins the back. It stops at a
     * held call, with that call's write still at the head, and at nothing else but an empty queue.
     */
    method FlushWrites(i: nat, calls: seq<Call>) returns (emptied: bool, ghost taken: nat, ghost made: nat)
      requires Enabled(View(), Locked(i))
      modifies this
      ensures i < |tasks| && tasks[i] == Over(emptied) && (emptied <==> unsaved == [])
      ensures View() == Drain(Step(old(View()), Locked(i)), i, calls)
      ensures Flushed(old(View()), View(), calls, taken, made)
    {
      ghost var start := Step(View(), Locked(i));
      taken, made := DrainTakes(start, i, calls);
      tasks := tasks[i := Next(unsaved)];
      var k := 0;
      while |unsaved| > 0
        invariant k <= |calls| && i < |tasks| && tasks[i] == Next(unsaved)
        invariant Drain(View(), i, calls[k..]) == Drain(start, i, calls)
        decreases |calls| - k, |unsaved|
      {
        var write, outcome := unsaved[0], Stored;
        if k < |calls| {
          assert calls[k..][1..] == calls[k + 1..];
          SubmittedStays(View(), calls[k].meanwhile, i);
          StoreAll(calls[k].meanwhile);
          outcome := calls[k].outcome;
          k := k + 1;
        }
        EndCall(i, write, outcome);
        if outcome.Held? {
          return false, taken, made;
        }
      }
      return true, taken, made;
    }
  }
}
