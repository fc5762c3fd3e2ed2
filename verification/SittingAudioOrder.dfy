/** Why the stored recording is every sitting's audio, in sitting order, each byte once. */
module SittingAudioOrder {
  import opened Prelude
  import opened SittingAudio

  // ---- Stored parts --------------------------------------------------------

  lemma {:induction false} PartsPrefix(a: seq<Sitting>, b: seq<Sitting>)
    requires |a| == |b| && forall k :: 0 <= k < |a| ==> StoredPart(a[k]) == StoredPart(b[k])
    ensures StoredParts(a) == StoredParts(b)
  {
    if |a| > 0 { PartsPrefix(a[..|a| - 1], b[..|b| - 1]); }
  }

  lemma {:induction false} PartsSplit(s: seq<Sitting>, i: nat)
    requires i <= |s| && forall k :: i <= k < |s| ==> StoredPart(s[k]) == []
    ensures StoredParts(s) == StoredParts(s[..i])
  {
    if i < |s| {
      PartsSplit(s[..|s| - 1], i);
      assert s[..|s| - 1][..i] == s[..i];
    } else {
      assert s[..i] == s;
    }
  }

  lemma Associative(x: seq<int>, y: seq<int>, z: seq<int>)
    ensures x + (y + z) == (x + y) + z
  {}

  /** Storing more of sitting i, with nothing stored after it, appends to the whole. */
  lemma {:induction false} PartsAppend(s: seq<Sitting>, t: seq<Sitting>, i: nat, more: seq<int>)
    requires i < |s| == |t| && t == s[i := t[i]]
    requires StoredPart(t[i]) == StoredPart(s[i]) + more
    requires forall k :: i < k < |s| ==> StoredPart(s[k]) == []
    ensures StoredParts(t) == StoredParts(s) + more
  {
    var a, b := s[..i + 1], t[..i + 1];
    PartsSplit(s, i + 1);
    PartsSplit(t, i + 1);
    assert a[..i] == s[..i] && b[..i] == s[..i];
    Associative(StoredParts(s[..i]), StoredPart(s[i]), more);
  }

  /** With nothing left to store, what is stored is everything recorded. */
  lemma {:induction false} PartsAreAll(s: seq<Sitting>)
    requires forall k :: 0 <= k < |s| ==> s[k].buffer == []
    ensures StoredParts(s) == Recorded(s)
  {
    if |s| > 0 { PartsAreAll(s[..|s| - 1]); }
  }

  // ---- Each step -----------------------------------------------------------

  /** Order among the sittings depends only on who failed, what is buffered, and the sitting's own record. */
  lemma ClearFrame(a: seq<Sitting>, b: seq<Sitting>, k: nat)
    requires k <= |a| && k <= |b| && ClearBehind(a, k)
    requires forall m :: 0 <= m < k && a[m].buffer == [] ==> b[m].buffer == []
    ensures ClearBehind(b, k)
  {}

  lemma FollowsAlike(a: seq<Sitting>, b: seq<Sitting>, p: nat, k: nat)
    requires k < |a| && k < |b| && Follows(a, p, k)
    requires forall m :: 0 <= m < k ==> b[m].failed == a[m].failed
    ensures Follows(b, p, k)
  {}

  lemma OrderedFrame(a: seq<Sitting>, b: seq<Sitting>, k: nat)
    requires k < |a| <= |b| && Ordered(a, k) && b[k] == a[k]
    requires forall m :: 0 <= m < k ==> b[m].failed == a[m].failed && (a[m].buffer == [] ==> b[m].buffer == [])
    ensures Ordered(b, k)
  {
    if a[k].priorTeardown.Some? {
      FollowsAlike(a, b, a[k].priorTeardown.value, k);
    } else if !a[k].failed {
      ClearFrame(a, b, k);
    }
  }

  lemma OrderedSet(a: seq<Sitting>, i: nat, s: Sitting, k: nat)
    requires i < |a| && k < |a| && k != i && Ordered(a, k)
    requires k < i || (s.failed == a[i].failed && (a[i].buffer == [] ==> s.buffer == []))
    ensures Ordered(a[i := s], k)
  {
    OrderedFrame(a, a[i := s], k);
  }

  lemma OkFrame(w: World, t: World, k: nat)
    requires k < |w.sittings| == |t.sittings| && OkAt(w, k) && t.sittings[k] == w.sittings[k]
    requires t.stored == w.stored && (t.closing == w.closing || k < |w.sittings| - 1)
    ensures OkAt(t, k)
  {}

  lemma FollowsFrame(a: seq<Sitting>, i: nat, s: Sitting, p: nat)
    requires i < |a| && Follows(a, p, i)
    ensures Follows(a[i := s], p, i)
  {}

  /** Which sitting is closing depends only on who has closed, who failed and what is buffered. */
  lemma StoreClosing(w: World, i: nat, t: World)
    requires ClosingOk(w) && i < |w.sittings| == |t.sittings|
    requires t == w.(stored := t.stored, sittings := w.sittings[i := t.sittings[i]])
    requires t.sittings[i].failed == w.sittings[i].failed && t.sittings[i].Closed() == w.sittings[i].Closed()
    requires w.sittings[i].buffer == [] ==> t.sittings[i].buffer == []
    ensures ClosingOk(t)
  {}

  lemma {:induction false} SameParts(a: seq<Sitting>, i: nat, s: Sitting)
    requires i < |a| && StoredPart(s) == StoredPart(a[i])
    ensures StoredParts(a[i := s]) == StoredParts(a)
  {
    PartsPrefix(a, a[i := s]);
  }

  lemma AllOkBut(w: World, t: World, i: nat)
    requires AllOk(w) && i < |w.sittings| == |t.sittings| && t.sittings == w.sittings[i := t.sittings[i]]
    requires t.stored == w.stored && (t.closing == w.closing || i == |w.sittings| - 1)
    requires OkAt(t, i)
    ensures AllOk(t)
  {
    forall k | 0 <= k < |t.sittings| ensures OkAt(t, k) {
      if k != i { OkFrame(w, t, k); }
    }
  }

  lemma AllOrderedBut(a: seq<Sitting>, i: nat, s: Sitting)
    requires AllOrdered(a) && i < |a|
    requires i == |a| - 1 || (s.failed == a[i].failed && (a[i].buffer == [] ==> s.buffer == []))
    requires Ordered(a[i := s], i)
    ensures AllOrdered(a[i := s])
  {
    var b := a[i := s];
    forall k | 0 <= k < |a| ensures Ordered(b, k) {
      if k != i { OrderedSet(a, i, s, k); }
    }
  }

  /** A step on one sitting that leaves what it buffers and what it was given alone. */
  lemma {:induction false} QuietKeeps(w: World, i: nat, s: Sitting)
    requires Inv(w) && i < |w.sittings|
    requires s.buffer == w.sittings[i].buffer && s.pushed == w.sittings[i].pushed
    requires s.Closed() == w.sittings[i].Closed() && s.failed == w.sittings[i].failed
    requires OkAt(Set(w, i, s), i) && Ordered(Set(w, i, s).sittings, i)
    ensures Inv(Set(w, i, s))
  {
    AllOkBut(w, Set(w, i, s), i);
    AllOrderedBut(w.sittings, i, s);
    StoreClosing(w, i, Set(w, i, s));
    SameParts(w.sittings, i, s);
  }

  lemma BeginFrame(w: World, k: nat)
    requires k < |w.sittings| && OkAt(w, k) && Ordered(w.sittings, k)
    requires w.sittings[k].Closed() && !Late(w.sittings[k])
    ensures OkAt(BeginStep(w), k) && Ordered(BeginStep(w).sittings, k)
  {
    OrderedFrame(w.sittings, BeginStep(w).sittings, k);
  }

  /** The newcomer waits for the closing sitting, behind failed starts only, or for nobody. */
  lemma NewcomerFollows(w: World, c: nat, t: seq<Sitting>)
    requires ClosingOk(w) && w.closing == Some(c) && |t| == |w.sittings| + 1 && t[..|w.sittings|] == w.sittings
    requires forall k :: 0 <= k < |w.sittings| ==> w.sittings[k].Closed()
    ensures Follows(t, c, |w.sittings|)
  {
    forall k | c <= k < |w.sittings| ensures t[k] == w.sittings[k] { assert t[..|w.sittings|][k] == t[k]; }
  }

  lemma NewcomerClear(w: World, t: seq<Sitting>)
    requires ClosingOk(w) && w.closing.None? && |t| == |w.sittings| + 1 && t[..|w.sittings|] == w.sittings
    requires forall k :: 0 <= k < |w.sittings| ==> w.sittings[k].Closed()
    ensures ClearBehind(t, |w.sittings|)
  {
    forall k | 0 <= k < |w.sittings| ensures t[k] == w.sittings[k] { assert t[..|w.sittings|][k] == t[k]; }
  }

  lemma BeginNewcomer(w: World)
    requires ClosingOk(w) && Enabled(w, Begin)
    ensures OkAt(BeginStep(w), |w.sittings|) && Ordered(BeginStep(w).sittings, |w.sittings|)
  {
    var t := BeginStep(w).sittings;
    assert t[..|w.sittings|] == w.sittings;
    if w.closing.Some? { NewcomerFollows(w, w.closing.value, t); } else { NewcomerClear(w, t); }
  }

  lemma {:induction false} BeginParts(w: World)
    ensures StoredParts(BeginStep(w).sittings) == StoredParts(w.sittings)
  {
    var t, n := BeginStep(w), |w.sittings|;
    assert t.sittings[..n] == w.sittings;
    assert StoredPart(t.sittings[n]) == [];
  }

  lemma BeginClosing(w: World)
    requires ClosingOk(w)
    ensures ClosingOk(BeginStep(w))
  {}

  lemma BeginRest(w: World)
    requires AllOk(w) && AllOrdered(w.sittings) && ClosingOk(w) && Enabled(w, Begin) && NoLate(w)
    ensures AllOk(BeginStep(w)) && AllOrdered(BeginStep(w).sittings)
  {
    forall k | 0 <= k < |w.sittings| ensures OkAt(BeginStep(w), k) && Ordered(BeginStep(w).sittings, k) {
      BeginFrame(w, k);
    }
    BeginNewcomer(w);
  }

  lemma {:induction false} BeginKeeps(w: World)
    requires Inv(w) && Enabled(w, Begin) && NoLate(w)
    ensures Inv(BeginStep(w))
  {
    BeginRest(w);
    BeginClosing(w);
    BeginParts(w);
  }

  /** A step on the newest sitting that leaves what is stored of it alone. */
  lemma {:induction false} LastKeeps(w: World, t: World, i: nat)
    requires Inv(w) && i < |w.sittings| && i == |w.sittings| - 1 && |t.sittings| == |w.sittings|
    requires t.sittings == w.sittings[i := t.sittings[i]] && t.stored == w.stored
    requires StoredPart(t.sittings[i]) == StoredPart(w.sittings[i])
    requires OkAt(t, i) && Ordered(t.sittings, i) && ClosingOk(t)
    ensures Inv(t)
  {
    AllOkBut(w, t, i);
    AllOrderedBut(w.sittings, i, t.sittings[i]);
    SameParts(w.sittings, i, t.sittings[i]);
  }

  lemma {:induction false} PushedOk(s: Sitting, stored: seq<int>, closed: bool, pcm: seq<int>)
    requires SittingOk(s, stored, true, closed) && !s.stage.Starting? && !s.stage.Last? && !s.stage.Torn? && !s.failed
    ensures SittingOk(s.(buffer := s.buffer + pcm, pushed := s.pushed + pcm), stored, true, closed)
    ensures StoredPart(s.(buffer := s.buffer + pcm, pushed := s.pushed + pcm)) == StoredPart(s)
  {}

  /** Audio pushed to the newest sitting leaves its place among the others, and what is closing, alone. */
  lemma PushFrames(w: World, i: nat, pcm: seq<int>)
    requires AllOrdered(w.sittings) && ClosingOk(w) && Enabled(w, Push(i, pcm)) && Clean(w, Push(i, pcm))
    requires OkAt(w, i)
    ensures Ordered(Step(w, Push(i, pcm)).sittings, i) && ClosingOk(Step(w, Push(i, pcm)))
  {
    assert Ordered(w.sittings, i);
    var s := Step(w, Push(i, pcm)).sittings[i];
    if s.priorTeardown.Some? { FollowsFrame(w.sittings, i, s, s.priorTeardown.value); }
  }

  lemma {:induction false} PushKeeps(w: World, i: nat, pcm: seq<int>)
    requires Inv(w) && Enabled(w, Push(i, pcm)) && Clean(w, Push(i, pcm))
    ensures Inv(Step(w, Push(i, pcm)))
  {
    assert OkAt(w, i);
    PushedOk(w.sittings[i], w.stored, w.closing == Some(i), pcm);
    PushFrames(w, i, pcm);
    LastKeeps(w, Step(w, Push(i, pcm)), i);
  }

  /** A sitting whose first retain stored, and that got nothing late, leaves nothing unstored behind the next. */
  lemma PriorClears(w: World, i: nat, p: nat)
    requires Inv(w) && i < |w.sittings| && Follows(w.sittings, p, i)
    requires w.sittings[p].first == Some(true) || w.sittings[p].stage.Torn?
    ensures ClearBehind(w.sittings, i)
  {
    assert OkAt(w, p) && Ordered(w.sittings, p);
    assert w.sittings[p].priorTeardown.None? && w.sittings[p].buffer == [];
    forall k | 0 <= k < i ensures w.sittings[k].buffer == [] { assert OkAt(w, k); }
  }

  /** Beginning a retain: the first of a sitting that is waiting, or the last of one between its two. */
  lemma RetainOk(s: Sitting, stored: seq<int>, newest: bool, closed: bool, stage: Stage)
    requires SittingOk(s, stored, newest, closed) && !s.failed
    requires (stage.First? && s.stage.Waiting?) || (stage.Last? && s.stage.Between?)
    ensures SittingOk(Retain(s.(priorRetain := None, priorTeardown := None, stage := stage)), stored, newest, closed)
  {}

  lemma GoKeeps(w: World, i: nat, stage: Stage)
    requires Inv(w) && i < |w.sittings| && !w.sittings[i].failed && ClearBehind(w.sittings, i)
    requires (stage.First? && w.sittings[i].stage.Waiting?) || (stage.Last? && w.sittings[i].stage.Between?)
    ensures Inv(Set(w, i, Retain(w.sittings[i].(priorRetain := None, priorTeardown := None, stage := stage))))
  {
    var s := Retain(w.sittings[i].(priorRetain := None, priorTeardown := None, stage := stage));
    assert OkAt(w, i);
    RetainOk(w.sittings[i], w.stored, i == |w.sittings| - 1, w.closing == Some(i), stage);
    assert OkAt(Set(w, i, s), i);
    assert Ordered(Set(w, i, s).sittings, i);
    QuietKeeps(w, i, s);
  }

  lemma GiveUpOk(w: World, i: nat)
    requires i < |w.sittings| && OkAt(w, i) && Ordered(w.sittings, i)
    requires w.sittings[i].stage.Waiting? && w.sittings[i].priorRetain.Some?
    ensures var s := w.sittings[i].(priorRetain := None, stage := Between, first := Some(false));
            OkAt(Set(w, i, s), i) && Ordered(Set(w, i, s).sittings, i)
  {
    var s := w.sittings[i].(priorRetain := None, stage := Between, first := Some(false));
    FollowsFrame(w.sittings, i, s, w.sittings[i].priorTeardown.value);
  }

  lemma {:induction false} GiveUpKeeps(w: World, i: nat)
    requires Inv(w) && i < |w.sittings| && w.sittings[i].stage.Waiting? && w.sittings[i].priorRetain.Some?
    ensures Inv(Set(w, i, w.sittings[i].(priorRetain := None, stage := Between, first := Some(false))))
  {
    GiveUpOk(w, i);
    QuietKeeps(w, i, w.sittings[i].(priorRetain := None, stage := Between, first := Some(false)));
  }

  lemma FirstGoKeeps(w: World, i: nat)
    requires Inv(w) && Enabled(w, FirstGo(i))
    ensures Inv(FirstGoStep(w, i))
  {
    var s := w.sittings[i];
    assert OkAt(w, i) && Ordered(w.sittings, i);
    if s.priorRetain.Some? && w.sittings[s.priorRetain.value].first == Some(false) {
      GiveUpKeeps(w, i);
    } else {
      if s.priorRetain.Some? {
        var first := w.sittings[s.priorRetain.value].first;
        assert first.value != false && first == Some(true);
        PriorClears(w, i, s.priorRetain.value);
      }
      GoKeeps(w, i, First);
    }
  }

  lemma LastGoKeeps(w: World, i: nat)
    requires Inv(w) && Enabled(w, LastGo(i))
    ensures Inv(Step(w, LastGo(i)))
  {
    var s := w.sittings[i];
    assert OkAt(w, i) && Ordered(w.sittings, i);
    if s.priorTeardown.Some? { PriorClears(w, i, s.priorTeardown.value); }
    GoKeeps(w, i, Last);
    assert s.(priorTeardown := None, stage := Last) == s.(priorRetain := None, priorTeardown := None, stage := Last);
  }

  /** A retain with audio to store is the only one under way, and nothing later has stored any. */
  lemma StoringAlone(w: World, i: nat, k: nat)
    requires Inv(w) && i < |w.sittings| && k < |w.sittings| && k != i
    requires w.sittings[i].op.Reading? || w.sittings[i].op.Writing?
    ensures !w.sittings[k].op.Reading? && !w.sittings[k].op.Writing?
    ensures k > i ==> StoredPart(w.sittings[k]) == []
  {
    assert OkAt(w, i) && OkAt(w, k) && Ordered(w.sittings, i) && Ordered(w.sittings, k);
  }

  lemma TailOf(pushed: seq<int>, buffer: seq<int>, taken: seq<int>, left: seq<int>)
    requires |buffer| <= |pushed| && buffer == pushed[|pushed| - |buffer|..]
    requires buffer == taken + left
    ensures left == pushed[|pushed| - |left|..]
    ensures pushed[..|pushed| - |left|] == pushed[..|pushed| - |buffer|] + taken
  {
    assert pushed == pushed[..|pushed| - |buffer|] + (taken + left);
  }

  /** The sitting's own record after its put: what it took has moved from buffered to stored. */
  lemma {:induction false} StoredOk(s: Sitting, stored: seq<int>, newest: bool, closed: bool, left: seq<int>)
    requires SittingOk(s, stored, newest, closed) && s.op.Writing? && s.buffer == s.op.taken + left
    ensures SittingOk(s.(op := Linking, buffer := left), s.op.existing + s.op.taken, newest, closed)
    ensures StoredPart(s.(op := Linking, buffer := left)) == StoredPart(s) + s.op.taken
  {
    TailOf(s.pushed, s.buffer, s.op.taken, left);
  }

  /** Every other sitting is untouched by the put, the stored audio it may have read included. */
  lemma {:induction false} StoreFrames(w: World, i: nat, t: World, k: nat)
    requires Inv(w) && i < |w.sittings| && k < |w.sittings| && k != i && w.sittings[i].op.Writing?
    requires |t.sittings| == |w.sittings| && t == w.(stored := t.stored, sittings := w.sittings[i := t.sittings[i]])
    ensures OkAt(t, k)
  {
    assert OkAt(w, k);
    StoringAlone(w, i, k);
  }

  lemma StoresHere(w: World, i: nat)
    requires Inv(w) && Enabled(w, PutDone(i, true))
    ensures OkAt(PutStep(w, i, true), i) && Ordered(PutStep(w, i, true).sittings, i)
  {
    assert OkAt(w, i) && Ordered(w.sittings, i);
    var left := PutStep(w, i, true).sittings[i].buffer;
    StoredOk(w.sittings[i], w.stored, i == |w.sittings| - 1, w.closing == Some(i), left);
  }

  lemma StoreKeeps(w: World, i: nat)
    requires Inv(w) && Enabled(w, PutDone(i, true))
    ensures Inv(PutStep(w, i, true))
  {
    var t := PutStep(w, i, true);
    var a := w.sittings[i];
    assert OkAt(w, i) && Ordered(w.sittings, i);
    StoredOk(a, w.stored, i == |w.sittings| - 1, w.closing == Some(i), t.sittings[i].buffer);
    StoresHere(w, i);
    forall k | 0 <= k < |t.sittings| && k != i ensures OkAt(t, k) { StoreFrames(w, i, t, k); }
    assert AllOk(t);
    AllOrderedBut(w.sittings, i, t.sittings[i]);
    forall k | i < k < |w.sittings| ensures StoredPart(w.sittings[k]) == [] { StoringAlone(w, i, k); }
    PartsAppend(w.sittings, t.sittings, i, a.op.taken);
    StoreClosing(w, i, t);
  }

  lemma {:induction false} StartedKeeps(w: World, i: nat)
    requires Inv(w) && Enabled(w, StartDone(i))
    ensures Inv(Step(w, StartDone(i)))
  {
    assert OkAt(w, i) && Ordered(w.sittings, i);
    QuietKeeps(w, i, w.sittings[i].(stage := Live));
  }

  lemma {:induction false} StepKeeps(w: World, e: Event)
    requires Inv(w) && Enabled(w, e) && Clean(w, e)
    ensures Inv(Step(w, e))
  {
    match e
    case Begin => BeginKeeps(w);
    case StartFails(i) => FailKeeps(w, i);
    case StartDone(i) => StartedKeeps(w, i);
    case Push(i, pcm) => PushKeeps(w, i, pcm);
    case Close(i) => CloseKeeps(w, i);
    case FirstGo(i) => FirstGoKeeps(w, i);
    case Got(i, ok) => if ok { ReadKeeps(w, i); } else { RetainKeeps(w, i, e); }
    case PutDone(i, ok) => if ok { StoreKeeps(w, i); } else { RetainKeeps(w, i, e); }
    case Linked(i, ok) => RetainKeeps(w, i, e);
    case LastGo(i) => LastGoKeeps(w, i);
    case TeardownPopped => PopKeeps(w);
  }

  lemma OverOk(s: Sitting, stored: seq<int>, newest: bool, closed: bool, ok: bool)
    requires SittingOk(s, stored, newest, closed) && !s.op.Idle? && (ok ==> s.op.Linking?)
    requires s.stage.Last? ==> s.buffer == []
    ensures SittingOk(Over(s, ok), stored, newest, closed)
  {}

  /** A sitting that waits for nobody keeps its place whatever it does without audio. */
  lemma UnwaitingOrdered(a: seq<Sitting>, i: nat, s: Sitting)
    requires i < |a| && Ordered(a, i) && a[i].priorTeardown.None? && !a[i].failed
    requires s.priorTeardown.None? && s.priorRetain.None?
    ensures Ordered(a[i := s], i)
  {}

  lemma RetainUnwaiting(a: seq<Sitting>, i: nat)
    requires i < |a| && Ordered(a, i) && (a[i].stage.First? || a[i].stage.Last?)
    ensures a[i].priorTeardown.None? && a[i].priorRetain.None?
  {}

  /** A retain that ends without storing leaves the audio where it is. */
  lemma {:induction false} OverKeeps(w: World, i: nat, ok: bool)
    requires Inv(w) && i < |w.sittings| && !w.sittings[i].op.Idle? && (ok ==> w.sittings[i].op.Linking?)
    requires w.sittings[i].stage.Last? ==> w.sittings[i].buffer == []
    ensures Inv(Set(w, i, Over(w.sittings[i], ok)))
  {
    var s := w.sittings[i];
    assert OkAt(w, i) && Ordered(w.sittings, i);
    OverOk(s, w.stored, i == |w.sittings| - 1, w.closing == Some(i), ok);
    RetainUnwaiting(w.sittings, i);
    UnwaitingOrdered(w.sittings, i, Over(s, ok));
    QuietKeeps(w, i, Over(s, ok));
  }

  /** So does one that has read what is stored. */
  lemma {:induction false} ReadKeeps(w: World, i: nat)
    requires Inv(w) && Enabled(w, Got(i, true))
    ensures Inv(Step(w, Got(i, true)))
  {
    var s := w.sittings[i].(op := Writing(w.stored, w.sittings[i].op.taken));
    assert OkAt(w, i) && Ordered(w.sittings, i);
    RetainUnwaiting(w.sittings, i);
    UnwaitingOrdered(w.sittings, i, s);
    QuietKeeps(w, i, s);
  }

  lemma {:induction false} RetainKeeps(w: World, i: nat, e: Event)
    requires Inv(w) && Enabled(w, e) && Clean(w, e)
    requires e == Got(i, false) || e == PutDone(i, false) || e == Linked(i, true) || e == Linked(i, false)
    ensures Inv(Step(w, e))
  {
    var ok := e.Linked? && e.ok;
    assert Step(w, e) == Set(w, i, Over(w.sittings[i], ok));
    OverKeeps(w, i, ok);
  }

  lemma WaitingOrdered(a: seq<Sitting>, i: nat, s: Sitting)
    requires i < |a| && Ordered(a, i) && a[i].stage.Live? && s == a[i].(stage := Waiting)
    ensures Ordered(a[i := s], i)
  {
    if s.priorTeardown.Some? {
      FollowsFrame(a, i, s, s.priorTeardown.value);
    } else if !s.failed {
      ClearFrame(a, a[i := s], i);
    }
  }

  lemma CloseOk(w: World, i: nat)
    requires Enabled(w, Close(i)) && OkAt(w, i)
    ensures i == |w.sittings| - 1
    ensures OkAt(Step(w, Close(i)), i)
  {}

  lemma CloseClosing(w: World, i: nat)
    requires Enabled(w, Close(i)) && i == |w.sittings| - 1 && OkAt(w, i)
    ensures ClosingOk(Step(w, Close(i)))
  {}

  lemma {:induction false} CloseKeeps(w: World, i: nat)
    requires Inv(w) && Enabled(w, Close(i))
    ensures Inv(Step(w, Close(i)))
  {
    assert OkAt(w, i) && Ordered(w.sittings, i);
    CloseOk(w, i);
    CloseClosing(w, i);
    WaitingOrdered(w.sittings, i, w.sittings[i].(stage := Waiting));
    LastKeeps(w, Step(w, Close(i)), i);
  }

  /** A failed start is no sitting to wait for. */
  lemma FailFrames(w: World, i: nat)
    requires Enabled(w, StartFails(i)) && OkAt(w, i) && ClosingOk(w)
    ensures i == |w.sittings| - 1
    ensures OkAt(Step(w, StartFails(i)), i) && Ordered(Step(w, StartFails(i)).sittings, i)
    ensures ClosingOk(Step(w, StartFails(i)))
  {}

  lemma {:induction false} FailKeeps(w: World, i: nat)
    requires Inv(w) && Enabled(w, StartFails(i))
    ensures Inv(Step(w, StartFails(i)))
  {
    assert OkAt(w, i);
    FailFrames(w, i);
    LastKeeps(w, Step(w, StartFails(i)), i);
  }

  lemma PopKeeps(w: World)
    requires Inv(w) && Enabled(w, TeardownPopped)
    ensures Inv(Step(w, TeardownPopped))
  {
    var t, c := Step(w, TeardownPopped), w.closing.value;
    assert OkAt(w, c) && Ordered(w.sittings, c);
    forall k | 0 <= k < |t.sittings| && t.sittings[k].Closed() ensures t.sittings[k].buffer == [] {
      assert OkAt(w, k);
    }
    forall k | 0 <= k < |t.sittings| ensures OkAt(t, k) { assert OkAt(w, k); }
  }

  // ---- Every clean run -----------------------------------------------------

  lemma {:induction false} RunsKeep(w: World, run: seq<Event>, end: World)
    requires Inv(w) && IsCleanRun(w, run, end)
    ensures Inv(end)
    decreases |run|
  {
    if |run| > 0 {
      StepKeeps(w, run[0]);
      RunsKeep(Step(w, run[0]), run[1..], end);
    }
  }

  /**
   * At every moment the stored recording is what has been stored of each sitting, in sitting order;
   * once all are torn down it is all their audio, with no byte lost or stored twice.
   */
  lemma RecordingInOrder(run: seq<Event>, w: World)
    requires IsCleanRun(EMPTY, run, w)
    ensures w.stored == StoredParts(w.sittings)
    ensures (forall k :: 0 <= k < |w.sittings| ==> w.sittings[k].stage.Torn?) ==> w.stored == Recorded(w.sittings)
  {
    assert StoredParts(EMPTY.sittings) == [];
    RunsKeep(EMPTY, run, w);
    if forall k :: 0 <= k < |w.sittings| ==> w.sittings[k].stage.Torn? {
      forall k | 0 <= k < |w.sittings| ensures w.sittings[k].buffer == [] { assert OkAt(w, k); }
      PartsAreAll(w.sittings);
    }
  }
}
