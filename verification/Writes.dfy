/**
 * The transcript writes of one session (api/src/api/session.py): a queue, the writer task that stores
 * it, and the flush a finalize runs beside it, one at a time under a lock. How each store call ends
 * is an input.
 */
module Writes {
  import opened Prelude

  /** How one attempt ends: stored, dropped for an error a retry cannot help, or held for a retry. */
  datatype Ending = Stored | Dropped | Held

  /** A flush: waiting for the lock, running the queue's first write, or over with the queue emptied or not. */
  datatype Task = Queued | Running(write: nat) | Over(emptied: bool)

  /** What left the queue, and whether it was stored. */
  datatype Popped = Popped(write: nat, stored: bool)

  /** `ran` is every attempt that was not held, `popped` what was taken off the queue for it. */
  datatype State = State(
    queue: seq<nat>, submitted: seq<nat>, popped: seq<Popped>, ran: seq<Popped>, tasks: seq<Task>, writer: Option<nat>,
    lastHeld: bool)

  const NOTHING := State([], [], [], [], [], None, false)

  // ---- What each step does -------------------------------------------------

  predicate WriterDone(s: State) {
    s.writer.None? || (s.writer.value < |s.tasks| && s.tasks[s.writer.value].Over?)
  }

  /** `_store`: queue the write, and start a writer if none is running. */
  function Submit(s: State, write: nat): State {
    var t := s.(queue := s.queue + [write], submitted := s.submitted + [write]);
    if WriterDone(s) then t.(tasks := s.tasks + [Queued], writer := Some(|s.tasks|)) else t
  }

  /** The loop's head: the first write is tried next, or the flush is over with the queue empty. */
  function Next(queue: seq<nat>): Task {
    if queue != [] then Running(queue[0]) else Over(true)
  }

  /** An attempt of task i has ended. */
  function Tried(s: State, i: nat, outcome: Ending): State
    requires i < |s.tasks| && s.tasks[i].Running? && s.queue != []
  {
    if outcome.Held? then s.(tasks := s.tasks[i := Over(false)], lastHeld := true)
    else
      s.(popped := s.popped + [Popped(s.queue[0], outcome.Stored?)],
         ran := s.ran + [Popped(s.tasks[i].write, outcome.Stored?)],
         queue := s.queue[1..], tasks := s.tasks[i := Next(s.queue[1..])], lastHeld := false)
  }

  datatype Event = Store(write: nat) | Flush | Locked(i: nat) | Attempt(i: nat, outcome: Ending)

  /** The lock is free: no task is running a write. */
  ghost predicate LockFree(s: State) {
    forall k :: 0 <= k < |s.tasks| ==> !s.tasks[k].Running?
  }

  ghost predicate Enabled(s: State, e: Event) {
    match e
    case Store(_) => true
    case Flush => true
    case Locked(i) => i < |s.tasks| && s.tasks[i].Queued? && LockFree(s)
    case Attempt(i, _) => i < |s.tasks| && s.tasks[i].Running? && s.queue != []
  }

  function Step(s: State, e: Event): State
    requires Enabled(s, e)
  {
    match e
    case Store(write) => Submit(s, write)
    case Flush => s.(tasks := s.tasks + [Queued])
    case Locked(i) => s.(tasks := s.tasks[i := Next(s.queue)])
    case Attempt(i, outcome) => Tried(s, i, outcome)
  }

  ghost predicate IsRun(s: State, run: seq<Event>, end: State)
    decreases |run|
  {
    if |run| == 0 then end == s else Enabled(s, run[0]) && IsRun(Step(s, run[0]), run[1..], end)
  }

  // ---- What every run keeps ------------------------------------------------

  function WritesOf(popped: seq<Popped>): (r: seq<nat>)
    ensures |r| == |popped|
  {
    if |popped| == 0 then [] else WritesOf(popped[..|popped| - 1]) + [popped[|popped| - 1].write]
  }

  /** At most one task runs a write, and it is the first of the queue. */
  ghost predicate OneRunning(s: State) {
    && (forall i, j :: 0 <= i < j < |s.tasks| ==> !(s.tasks[i].Running? && s.tasks[j].Running?))
    && (forall i :: 0 <= i < |s.tasks| && s.tasks[i].Running? ==> s.queue != [] && s.tasks[i].write == s.queue[0])
  }

  /** Writes are left waiting only behind a writer that still has to go, or one that was held. */
  ghost predicate WaitsForWriter(s: State) {
    && (s.writer.Some? ==> s.writer.value < |s.tasks|)
    && (s.queue != [] ==> s.writer.Some? && s.tasks[s.writer.value] != Over(true))
  }

  ghost predicate AllOver(s: State) {
    forall k :: 0 <= k < |s.tasks| ==> s.tasks[k].Over?
  }

  ghost predicate Inv(s: State) {
    && s.submitted == WritesOf(s.popped) + s.queue
    && s.popped == s.ran
    && OneRunning(s) && WaitsForWriter(s)
    && (s.queue != [] && AllOver(s) ==> s.lastHeld)
  }

  lemma {:induction false} SubmitQueues(s: State, write: nat)
    requires s.submitted == WritesOf(s.popped) + s.queue
    ensures Submit(s, write).submitted == WritesOf(Submit(s, write).popped) + Submit(s, write).queue
  {
    assert (WritesOf(s.popped) + s.queue) + [write] == WritesOf(s.popped) + (s.queue + [write]);
  }

  lemma SubmitTasks(s: State, write: nat)
    requires OneRunning(s) && WaitsForWriter(s)
    ensures OneRunning(Submit(s, write)) && WaitsForWriter(Submit(s, write)) && !AllOver(Submit(s, write))
  {
    var t := Submit(s, write);
    if WriterDone(s) { assert t.tasks[|s.tasks|].Queued?; } else { assert !t.tasks[s.writer.value].Over?; }
  }

  lemma {:induction false} SubmitKeeps(s: State, write: nat)
    requires Inv(s)
    ensures Inv(Submit(s, write))
  {
    SubmitQueues(s, write);
    SubmitTasks(s, write);
  }

  /** The running task is the only one: whatever runs after the attempt is its next write. */
  lemma TriedRuns(s: State, i: nat, outcome: Ending)
    requires OneRunning(s) && Enabled(s, Attempt(i, outcome))
    ensures OneRunning(Tried(s, i, outcome))
  {
    var t := Tried(s, i, outcome);
    forall k | 0 <= k < |t.tasks| && k != i ensures !t.tasks[k].Running? { assert t.tasks[k] == s.tasks[k]; }
  }

  lemma TriedWaits(s: State, i: nat, outcome: Ending)
    requires WaitsForWriter(s) && Enabled(s, Attempt(i, outcome))
    ensures WaitsForWriter(Tried(s, i, outcome))
  {}

  lemma TriedHeld(s: State, i: nat, outcome: Ending)
    requires Enabled(s, Attempt(i, outcome))
    ensures var t := Tried(s, i, outcome); t.queue != [] && AllOver(t) ==> t.lastHeld
  {
    var t := Tried(s, i, outcome);
    if AllOver(t) { assert t.tasks[i].Over?; }
  }

  /** What leaves the queue is its first write, and the one that ran. */
  lemma {:induction false} TriedPops(s: State, i: nat, outcome: Ending)
    requires s.submitted == WritesOf(s.popped) + s.queue && s.popped == s.ran && OneRunning(s)
    requires Enabled(s, Attempt(i, outcome))
    ensures var t := Tried(s, i, outcome); t.submitted == WritesOf(t.popped) + t.queue && t.popped == t.ran
  {
    var t := Tried(s, i, outcome);
    if !outcome.Held? {
      assert t.popped[..|t.popped| - 1] == s.popped;
      assert (WritesOf(s.popped) + [s.queue[0]]) + s.queue[1..] == WritesOf(s.popped) + s.queue;
    }
  }

  lemma {:induction false} AttemptKeeps(s: State, i: nat, outcome: Ending)
    requires Inv(s) && Enabled(s, Attempt(i, outcome))
    ensures Inv(Tried(s, i, outcome))
  {
    TriedRuns(s, i, outcome);
    TriedWaits(s, i, outcome);
    TriedHeld(s, i, outcome);
    TriedPops(s, i, outcome);
  }

  lemma {:induction false} StepKeeps(s: State, e: Event)
    requires Inv(s) && Enabled(s, e)
    ensures Inv(Step(s, e))
  {
    match e
    case Store(write) => SubmitKeeps(s, write);
    case Flush => assert Step(s, e).tasks[|s.tasks|].Queued?;
    case Locked(i) =>
      assert !s.tasks[i].Over?;
      if s.queue != [] { assert Step(s, e).tasks[i].Running?; }
    case Attempt(i, outcome) => AttemptKeeps(s, i, outcome);
  }

  lemma {:induction false} RunsKeep(s: State, run: seq<Event>, end: State)
    requires Inv(s) && IsRun(s, run, end)
    ensures Inv(end)
    decreases |run|
  {
    if |run| > 0 {
      StepKeeps(s, run[0]);
      RunsKeep(Step(s, run[0]), run[1..], end);
    }
  }

  // ---- What it gives -------------------------------------------------------

  /**
   * Over every interleaving, what was submitted is what left the queue followed by what waits in it,
   * in order and once each; and every write that left is the very write that ran.
   */
  lemma WritesInOrder(run: seq<Event>, s: State)
    requires IsRun(NOTHING, run, s)
    ensures s.submitted == WritesOf(s.ran) + s.queue && s.popped == s.ran
  {
    RunsKeep(NOTHING, run, s);
  }

  /** Held attempts take nothing off the queue: what is stored or dropped grows only by the others. */
  lemma HeldLosesNothing(run: seq<Event>, s: State, i: nat)
    requires IsRun(NOTHING, run, s) && Enabled(s, Attempt(i, Held))
    ensures Tried(s, i, Held).queue == s.queue && Tried(s, i, Held).popped == s.popped
    ensures s.tasks[i].write == s.queue[0]
  {
    RunsKeep(NOTHING, run, s);
  }

  /** With writes waiting, either a flush still has to go, or the last attempt of all was held. */
  lemma WaitingMeansHeld(run: seq<Event>, s: State)
    requires IsRun(NOTHING, run, s) && s.queue != []
    ensures (exists k :: 0 <= k < |s.tasks| && !s.tasks[k].Over?) || s.lastHeld
    ensures WriterDone(s) ==> s.writer.Some? && s.tasks[s.writer.value] == Over(false)
  {
    RunsKeep(NOTHING, run, s);
    if forall k :: 0 <= k < |s.tasks| ==> s.tasks[k].Over? { assert AllOver(s); }
  }

  // ---- What left the queue, and why ----------------------------------------

  /** The attempts of a run that were not held, in turn: whether each stored its write. */
  function Ends(run: seq<Event>): seq<bool> {
    if |run| == 0 then [] else End(run[0]) + Ends(run[1..])
  }

  function End(e: Event): seq<bool> {
    if e.Attempt? && !e.outcome.Held? then [e.outcome.Stored?] else []
  }

  lemma Regroup<T>(a: seq<T>, b: seq<T>, c: seq<T>)
    ensures (a + b) + c == a + (b + c)
  {}

  function StoredOf(popped: seq<Popped>): (r: seq<bool>)
    ensures |r| == |popped|
  {
    seq(|popped|, k requires 0 <= k < |popped| => popped[k].stored)
  }

  lemma StepPops(s: State, e: Event)
    requires Enabled(s, e)
    ensures StoredOf(Step(s, e).popped) == StoredOf(s.popped) + End(e)
  {}

  lemma {:induction false} RunPops(s: State, run: seq<Event>, end: State)
    requires IsRun(s, run, end)
    ensures StoredOf(end.popped) == StoredOf(s.popped) + Ends(run)
    decreases |run|
  {
    if |run| > 0 {
      var t := Step(s, run[0]);
      StepPops(s, run[0]);
      RunPops(t, run[1..], end);
      Regroup(StoredOf(s.popped), End(run[0]), Ends(run[1..]));
    }
  }

  lemma {:induction false} WriteAt(popped: seq<Popped>, k: nat)
    requires k < |popped|
    ensures WritesOf(popped)[k] == popped[k].write
  {
    if k < |popped| - 1 { WriteAt(popped[..|popped| - 1], k); }
  }

  lemma SplitAt<T>(all: seq<T>, a: seq<T>, b: seq<T>)
    requires all == a + b
    ensures |a| + |b| == |all| && b == all[|a|..] && forall k :: 0 <= k < |a| ==> all[k] == a[k]
  {}

  lemma PoppedAt(s: State, ends: seq<bool>, k: nat)
    requires StoredOf(s.popped) == ends && s.submitted == WritesOf(s.popped) + s.queue && k < |s.popped|
    ensures k < |ends| && k < |s.submitted| && s.popped[k] == Popped(s.submitted[k], ends[k])
  {
    WriteAt(s.popped, k);
    assert StoredOf(s.popped)[k] == ends[k];
  }

  /**
   * Over every interleaving, each attempt that was not held took one write off the queue, the oldest
   * left, and nothing else did: the k-th such attempt was of the k-th write submitted, and whether it
   * was stored is how that attempt ended. A write no retry can help is dropped and leaves the queue too.
   */
  lemma EachEndTakesOne(run: seq<Event>, s: State)
    requires IsRun(NOTHING, run, s)
    ensures |Ends(run)| == |s.popped| && |s.popped| + |s.queue| == |s.submitted|
    ensures forall k :: 0 <= k < |s.popped| ==> s.popped[k] == Popped(s.submitted[k], Ends(run)[k])
    ensures s.queue == s.submitted[|s.popped|..]
  {
    var ends := Ends(run);
    WritesInOrder(run, s);
    RunPops(NOTHING, run, s);
    assert StoredOf(NOTHING.popped) + ends == ends;
    SplitAt(s.submitted, WritesOf(s.popped), s.queue);
    forall k | 0 <= k < |s.popped| ensures s.popped[k] == Popped(s.submitted[k], ends[k]) { PoppedAt(s, ends, k); }
  }

  /** How the last attempt of a run ended. */
  function LastEnding(run: seq<Event>): Option<Ending> {
    if |run| == 0 then None
    else if LastEnding(run[1..]).Some? then LastEnding(run[1..])
    else if run[0].Attempt? then Some(run[0].outcome) else None
  }

  lemma {:induction false} RunLastHeld(s: State, run: seq<Event>, end: State)
    requires IsRun(s, run, end)
    ensures end.lastHeld <==> if LastEnding(run).Some? then LastEnding(run).value.Held? else s.lastHeld
    decreases |run|
  {
    if |run| > 0 { RunLastHeld(Step(s, run[0]), run[1..], end); }
  }

  /**
   * After an attempt, its flush stops exactly if it was held or has emptied the queue, and otherwise
   * goes on with the next write; no other flush is touched. `lastHeld` says that the last attempt of
   * the run was held.
   */
  lemma FlushGoesOn(run: seq<Event>, s: State, i: nat, outcome: Ending)
    requires IsRun(NOTHING, run, s) && Enabled(s, Attempt(i, outcome))
    ensures s.lastHeld <==> LastEnding(run) == Some(Held)
    ensures var t := Step(s, Attempt(i, outcome));
      && |t.tasks| == |s.tasks| && (forall k :: 0 <= k < |s.tasks| && k != i ==> t.tasks[k] == s.tasks[k])
      && |s.queue| > 0 && s.tasks[i] == Running(s.queue[0])
      && t.queue == (if outcome.Held? then s.queue else s.queue[1..])
      && t.tasks[i] == (if outcome.Held? then Over(false)
                        else if |s.queue| == 1 then Over(true) else Running(s.queue[1]))
  {
    RunsKeep(NOTHING, run, s);
    RunLastHeld(NOTHING, run, s);
  }
}
