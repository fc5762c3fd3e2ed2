/** Exactly when resuming a closing sitting keeps the stored recording in order. */
module SittingAudioLate {
  import opened Prelude
  import opened SittingAudio
  import opened SittingAudioOrder

  lemma {:induction false} RunThen(w: World, run: seq<Event>, mid: World, e: Event)
    requires IsCleanRun(w, run, mid) && Enabled(mid, e) && Clean(mid, e)
    ensures IsCleanRun(w, run + [e], Step(mid, e))
    decreases |run|
  {
    if |run| > 0 {
      RunThen(Step(w, run[0]), run[1..], mid, e);
      assert (run + [e])[1..] == run[1..] + [e];
    } else {
      assert (run + [e])[1..] == run;
    }
  }

  /** One more event after a run. */
  lemma Then(start: World, run: seq<Event>, w: World, e: Event) returns (longer: seq<Event>, end: World)
    requires IsCleanRun(start, run, w) && Enabled(w, e) && Clean(w, e)
    ensures IsCleanRun(start, longer, end) && end == Step(w, e)
  {
    RunThen(start, run, w, e);
    longer, end := run + [e], Step(w, e);
  }

  function Newcomer(k: nat): Sitting {
    Sitting(Starting, Idle, None, [], false, Some(k), Some(k), [])
  }

  /** Sitting k has late audio and a retain under way or over, and sitting k + 1 resumed it. */
  ghost predicate LateIn(w: World, k: nat) {
    && |w.sittings| == k + 2 && w.closing == Some(k) && w.stored == StoredParts(w.sittings)
    && w.sittings[k + 1] == Newcomer(k) && LateOk(w.sittings[k], w.stored)
  }

  ghost predicate LateOk(s: Sitting, stored: seq<int>) {
    && Late(s) && !s.failed && s.priorTeardown.None?
    && |s.buffer| <= |s.pushed| && s.buffer == s.pushed[|s.pushed| - |s.buffer|..]
    && (s.op.Idle? <==> s.stage.Between?)
    && (s.op.Reading? || s.op.Writing? ==> s.op.taken <= s.buffer)
    && (s.op.Writing? ==> s.op.existing == stored)
    && (!s.stage.First? ==> s.first == Some(true))
    && (s.stage.Last? ==> !s.op.Linking? && s.op.taken == s.buffer)
  }

  lemma LateBegins(w: World, k: nat)
    requires Inv(w) && Enabled(w, Begin) && k < |w.sittings| && Late(w.sittings[k])
    ensures LateIn(BeginStep(w), k)
  {
    var v := BeginStep(w);
    assert OkAt(w, k) && Ordered(w.sittings, k) && k == |w.sittings| - 1;
    assert v.sittings[..k + 1] == w.sittings;
    assert StoredPart(v.sittings[k + 1]) == [];
  }

  /** A step of the late sitting's own that stores nothing. */
  lemma LateMoves(v: World, k: nat, s: Sitting)
    requires LateIn(v, k) && LateOk(s, v.stored)
    requires s.buffer == v.sittings[k].buffer && s.pushed == v.sittings[k].pushed
    ensures LateIn(Set(v, k, s), k)
  {
    PartsPrefix(v.sittings, Set(v, k, s).sittings);
  }

  /** The first retain's put leaves the late audio buffered. */
  lemma LateStores(v: World, k: nat)
    requires LateIn(v, k) && v.sittings[k].op.Writing? && v.sittings[k].stage.First?
    ensures LateIn(PutStep(v, k, true), k)
  {
    var a, t := v.sittings[k], PutStep(v, k, true);
    var left, n := a.buffer[|a.op.taken|..], |a.pushed| - |a.buffer|;
    assert a.pushed == a.pushed[..n] + a.buffer && a.buffer == a.op.taken + left;
    assert a.pushed == (a.pushed[..n] + a.op.taken) + left;
    assert StoredPart(t.sittings[k]) == StoredPart(a) + a.op.taken;
    PartsAppend(v.sittings, t.sittings, k, a.op.taken);
  }

  /** A late sitting whose first retain is over begins its last. */
  lemma BeginLast(start: World, run0: seq<Event>, v0: World, k: nat) returns (run: seq<Event>, v: World)
    requires IsCleanRun(start, run0, v0) && LateIn(v0, k) && (v0.sittings[k].op.Linking? || v0.sittings[k].op.Idle?)
    ensures IsCleanRun(start, run, v) && LateIn(v, k) && v.sittings[k].stage.Last?
  {
    run, v := run0, v0;
    if v.sittings[k].op.Linking? {
      LateMoves(v, k, Over(v.sittings[k], true));
      run, v := Then(start, run, v, Linked(k, true));
    }
    LateMoves(v, k, Retain(v.sittings[k].(priorTeardown := None, stage := Last)));
    run, v := Then(start, run, v, LastGo(k));
  }

  /** The late sitting's first retain can end well, and its last begin, before the newcomer does anything. */
  lemma ReachLast(start: World, k: nat) returns (run: seq<Event>, v: World)
    requires LateIn(start, k)
    ensures IsCleanRun(start, run, v) && LateIn(v, k) && v.sittings[k].stage.Last?
  {
    run, v := [], start;
    if v.sittings[k].stage.Last? {
      return;
    }
    if v.sittings[k].op.Reading? {
      LateMoves(v, k, v.sittings[k].(op := Writing(v.stored, v.sittings[k].op.taken)));
      run, v := Then(start, run, v, Got(k, true));
    }
    if v.sittings[k].op.Writing? {
      LateStores(v, k);
      run, v := Then(start, run, v, PutDone(k, true));
    }
    run, v := BeginLast(start, run, v, k);
  }

  /** The world with sitting n, the store and the closing sitting replaced. */
  function With(v: World, n: nat, s: Sitting, stored: seq<int>, closing: Option<nat>): World
    requires n < |v.sittings|
  {
    World(stored, v.sittings[n := s], closing)
  }

  /** Then the newcomer records x and closes. */
  lemma NewcomerCloses(start: World, run0: seq<Event>, v0: World, k: nat, x: int) returns (run: seq<Event>, v: World)
    requires IsCleanRun(start, run0, v0) && LateIn(v0, k) && v0.sittings[k].stage.Last?
    ensures IsCleanRun(start, run, v)
    ensures v == With(v0, k + 1,
      Sitting(Waiting, Idle, None, [x], false, Some(k), Some(k), [x]), v0.stored, Some(k + 1))
  {
    var n := k + 1;
    run, v := Then(start, run0, v0, StartDone(n));
    assert v == With(v0, n, Newcomer(k).(stage := Live), v0.stored, Some(k));
    run, v := Then(start, run, v, Push(n, [x]));
    assert v.sittings[n].buffer == [x] && v.sittings[n].pushed == [x];
    assert v == With(v0, n, Sitting(Live, Idle, None, [x], false, Some(k), Some(k), [x]), v0.stored, Some(k));
    run, v := Then(start, run, v, Close(n));
  }

  /** Its first retain has read what is stored while the late audio is still unstored. */
  lemma NewcomerReads(start: World, run0: seq<Event>, v0: World, k: nat, x: int) returns (run: seq<Event>, v: World)
    requires IsCleanRun(start, run0, v0) && LateIn(v0, k) && v0.sittings[k].stage.Last?
    ensures IsCleanRun(start, run, v)
    ensures v == With(v0, k + 1,
      Sitting(First, Writing(v0.stored, [x]), None, [x], false, None, None, [x]), v0.stored, Some(k + 1))
  {
    var n := k + 1;
    run, v := NewcomerCloses(start, run0, v0, k, x);
    run, v := Then(start, run, v, FirstGo(n));
    assert v == With(v0, n, Sitting(First, Reading([x]), None, [x], false, None, None, [x]), v0.stored, Some(n));
    run, v := Then(start, run, v, Got(n, true));
  }

  /** And stores x. */
  lemma NewcomerStores(start: World, run0: seq<Event>, v0: World, k: nat, x: int) returns (run: seq<Event>, v: World)
    requires IsCleanRun(start, run0, v0) && LateIn(v0, k) && v0.sittings[k].stage.Last?
    ensures IsCleanRun(start, run, v)
    ensures v == With(v0, k + 1,
      Sitting(First, Linking, None, [], false, None, None, [x]), v0.stored + [x], Some(k + 1))
  {
    var n := k + 1;
    run, v := NewcomerReads(start, run0, v0, k, x);
    run, v := Then(start, run, v, PutDone(n, true));
    assert v.sittings[n].buffer == [];
    assert v.sittings == v0.sittings[n := Sitting(First, Linking, None, [], false, None, None, [x])];
  }

  /** The two orders of the late audio and x differ, and so does losing x altogether. */
  lemma OutOfOrder(stored: seq<int>, late: seq<int>, x: int)
    requires late != [] && x != late[0]
    ensures (stored + [x]) + late != (stored + late) + [x] && stored + late != (stored + late) + [x]
  {
    assert ((stored + [x]) + late)[|stored|] == x && ((stored + late) + [x])[|stored|] == late[0];
    assert |stored + late| != |(stored + late) + [x]|;
  }

  /** The late sitting's put, once the newcomer has stored x: it lands behind x, or over it. */
  lemma LatePuts(start: World, run0: seq<Event>, v0: World, k: nat) returns (run: seq<Event>, v: World)
    requires IsCleanRun(start, run0, v0) && k + 1 < |v0.sittings| && v0.sittings[k].stage.Last?
    requires v0.sittings[k].op.Reading? || v0.sittings[k].op.Writing?
    requires v0.sittings[k].op.taken == v0.sittings[k].buffer
    ensures IsCleanRun(start, run, v)
    ensures v.sittings == v0.sittings[k := v0.sittings[k].(op := Linking, buffer := [])]
    ensures var s := v0.sittings[k];
            v.stored == (if s.op.Reading? then v0.stored else s.op.existing) + s.buffer
  {
    run, v := run0, v0;
    if v.sittings[k].op.Reading? {
      run, v := Then(start, run, v, Got(k, true));
    }
    run, v := Then(start, run, v, PutDone(k, true));
    assert v.sittings[k] == v0.sittings[k].(op := Linking, buffer := []);
    assert v.sittings == v0.sittings[k := v.sittings[k]];
  }

  /** What is stored of two last sittings, the earlier holding back its buffer. */
  lemma {:induction false} TwoParts(s: seq<Sitting>, k: nat)
    requires |s| == k + 2
    ensures StoredParts(s) == (StoredParts(s[..k]) + StoredPart(s[k])) + StoredPart(s[k + 1])
  {
    assert s[..k + 1][..k] == s[..k];
  }

  /** In order, the late audio comes before x, whatever the put did. */
  lemma {:induction false} LateInOrder(before: seq<Sitting>, after: seq<Sitting>, k: nat, x: int, stored: seq<int>)
    requires |before| == |after| == k + 2 && before[..k] == after[..k]
    requires stored == StoredParts(before) && StoredPart(before[k + 1]) == []
    requires |before[k].buffer| <= |before[k].pushed|
    requires before[k].buffer == before[k].pushed[|before[k].pushed| - |before[k].buffer|..]
    requires after[k].pushed == before[k].pushed && after[k].buffer == [] && StoredPart(after[k + 1]) == [x]
    ensures StoredParts(after) == (stored + before[k].buffer) + [x]
  {
    TwoParts(before, k);
    TwoParts(after, k);
    AllStored(before[k], after[k]);
    var front, part := StoredParts(before[..k]), StoredPart(before[k]);
    assert stored == front + part;
    Associative(front, part, before[k].buffer);
  }

  lemma {:induction false} AllStored(before: Sitting, after: Sitting)
    requires |before.buffer| <= |before.pushed| && before.buffer == before.pushed[|before.pushed| - |before.buffer|..]
    requires after.pushed == before.pushed && after.buffer == []
    ensures StoredPart(after) == StoredPart(before) + before.buffer
  {
    assert after.pushed[..|after.pushed|] == after.pushed;
  }

  /** From a late sitting in its last retain: the newcomer stores first, and the recording is out of order. */
  lemma LastBreaks(start: World, run0: seq<Event>, v0: World, k: nat) returns (run: seq<Event>, v: World)
    requires IsCleanRun(start, run0, v0) && LateIn(v0, k) && v0.sittings[k].stage.Last?
    ensures IsCleanRun(start, run, v) && v.stored != StoredParts(v.sittings)
  {
    var late := v0.sittings[k];
    var x := late.buffer[0] + 1;
    var run1, v1 := NewcomerStores(start, run0, v0, k, x);
    run, v := LatePuts(start, run1, v1, k);
    LateInOrder(v0.sittings, v.sittings, k, x, v0.stored);
    OutOfOrder(v0.stored, late.buffer, x);
  }

  lemma {:induction false} LateBreaks(w: World, k: nat)
    requires Inv(w) && Enabled(w, Begin) && k < |w.sittings| && Late(w.sittings[k])
    ensures exists run, end :: IsCleanRun(BeginStep(w), run, end) && end.stored != StoredParts(end.sittings)
  {
    LateBegins(w, k);
    var run0, v0 := ReachLast(BeginStep(w), k);
    var run, v := LastBreaks(BeginStep(w), run0, v0, k);
  }

  /** Every clean continuation keeps the recording in order. */
  ghost predicate StaysInOrder(w: World) {
    forall run, end :: IsCleanRun(w, run, end) ==> end.stored == StoredParts(end.sittings)
  }

  /**
   * A sitting may start without ever putting the recording out of order if and only if, as it
   * starts, no closing sitting holds audio that came after its first retain took the buffer.
   */
  lemma ResumeKeepsOrderIff(run: seq<Event>, w: World)
    requires IsCleanRun(EMPTY, run, w) && Enabled(w, Begin)
    ensures StaysInOrder(BeginStep(w)) <==> NoLate(w)
  {
    assert StoredParts(EMPTY.sittings) == [];
    RunsKeep(EMPTY, run, w);
    if NoLate(w) {
      BeginKeeps(w);
      forall rest, end | IsCleanRun(BeginStep(w), rest, end) ensures end.stored == StoredParts(end.sittings) {
        RunsKeep(BeginStep(w), rest, end);
      }
    } else {
      var k :| 0 <= k < |w.sittings| && Late(w.sittings[k]);
      LateBreaks(w, k);
    }
  }

  /** A first sitting that records 1. */
  lemma FirstRecording() returns (run: seq<Event>, w: World)
    ensures IsCleanRun(EMPTY, run, w)
    ensures w == World([], [Sitting(Live, Idle, None, [1], false, None, None, [1])], None)
  {
    run, w := Then(EMPTY, [], EMPTY, Begin);
    run, w := Then(EMPTY, run, w, StartDone(0));
    assert w.sittings == [Sitting(Live, Idle, None, [], false, None, None, [])];
    run, w := Then(EMPTY, run, w, Push(0, [1]));
    assert w.sittings[0].buffer == [1] && w.sittings[0].pushed == [1];
  }

  /** It closes and begins to store it. */
  lemma FirstStoring() returns (run: seq<Event>, w: World)
    ensures IsCleanRun(EMPTY, run, w)
    ensures w == World([], [Sitting(First, Reading([1]), None, [1], false, None, None, [1])], Some(0))
  {
    run, w := FirstRecording();
    run, w := Then(EMPTY, run, w, Close(0));
    run, w := Then(EMPTY, run, w, FirstGo(0));
  }

  /** A resume does come at such a moment: more audio arrives while the first retain is storing what it took. */
  lemma LateHappens()
    ensures exists run, w :: IsCleanRun(EMPTY, run, w) && Enabled(w, Begin) && !NoLate(w) && !StaysInOrder(BeginStep(w))
  {
    var run, w := FirstStoring();
    run, w := Then(EMPTY, run, w, Push(0, [2]));
    assert Late(w.sittings[0]);
    ResumeKeepsOrderIff(run, w);
  }
}
