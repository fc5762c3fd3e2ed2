/**
 * How the sittings of one recording store their audio (api/src/api/session.py): each retains its
 * buffer once as it closes and once at the end of its teardown, by reading what is stored and
 * putting it back with its own audio behind it, and waits for the sitting it resumed.
 */
module SittingAudio {
  import opened Prelude

  /** A retain between its awaits: reading the stored audio, putting it back extended, linking the key. */
  datatype Op = Idle | Reading(taken: seq<int>) | Writing(existing: seq<int>, taken: seq<int>) | Linking

  /** Where a sitting is: starting, live, then through its two retains to the end of its teardown. */
  datatype Stage = Starting | Live | Waiting | First | Between | Last | Torn

  /** `first` is the result of the first retain's task, once it is done. */
  datatype Sitting = Sitting(
    stage: Stage, op: Op, first: Option<bool>, buffer: seq<int>, failed: bool,
    priorRetain: Option<nat>, priorTeardown: Option<nat>, pushed: seq<int>)
  {
    predicate Closed() { !stage.Starting? && !stage.Live? }
  }

  datatype World = World(stored: seq<int>, sittings: seq<Sitting>, closing: Option<nat>)

  const EMPTY := World([], [], None)

  datatype Event =
    | Begin | StartFails(i: nat) | StartDone(i: nat) | Push(i: nat, pcm: seq<int>) | Close(i: nat)
    | FirstGo(i: nat) | Got(i: nat, ok: bool) | PutDone(i: nat, ok: bool) | Linked(i: nat, ok: bool)
    | LastGo(i: nat) | TeardownPopped

  function Set(w: World, i: nat, s: Sitting): World
    requires i < |w.sittings|
  {
    w.(sittings := w.sittings[i := s])
  }

  // ---- What each step does -------------------------------------------------

  function BeginStep(w: World): World {
    w.(sittings := w.sittings + [Sitting(Starting, Idle, None, [], false, w.closing, w.closing, [])])
  }

  /** `_persist_audio`'s first step: take the buffer and read what is stored, if there is any audio. */
  function Retain(s: Sitting): Sitting {
    s.(op := if s.buffer == [] then Linking else Reading(s.buffer))
  }

  /** The retain under way is over: the first one reports how it went, the last ends the teardown. */
  function Over(s: Sitting, ok: bool): Sitting {
    if s.stage.First? then s.(op := Idle, stage := Between, first := Some(ok)) else s.(op := Idle, stage := Torn)
  }

  /** `_retain_audio_after_prior`, once the retain it waits for is over. */
  function FirstGoStep(w: World, i: nat): World
    requires Enabled(w, FirstGo(i))
  {
    var s := w.sittings[i];
    if s.priorRetain.Some? && w.sittings[s.priorRetain.value].first == Some(false) then
      Set(w, i, s.(priorRetain := None, stage := Between, first := Some(false)))
    else Set(w, i, Retain(s.(priorRetain := None, priorTeardown := None, stage := First)))
  }

  /** The atomic put, then the trim of what it stored. */
  function PutStep(w: World, i: nat, ok: bool): World
    requires Enabled(w, PutDone(i, ok))
  {
    var s := w.sittings[i];
    if !ok then Set(w, i, Over(s, false))
    else
      var left := if |s.op.taken| <= |s.buffer| then s.buffer[|s.op.taken|..] else [];
      Set(w, i, s.(op := Linking, buffer := left)).(stored := s.op.existing + s.op.taken)
  }

  predicate Enabled(w: World, e: Event) {
    match e
    case Begin => forall k :: 0 <= k < |w.sittings| ==> w.sittings[k].Closed()
    case StartFails(i) => i < |w.sittings| && w.sittings[i].stage.Starting?
    case StartDone(i) => i < |w.sittings| && w.sittings[i].stage.Starting?
    case Push(i, _) => i < |w.sittings| && !w.sittings[i].stage.Starting? && !w.sittings[i].failed
    case Close(i) => i < |w.sittings| && w.sittings[i].stage.Live?
    case FirstGo(i) => i < |w.sittings| && w.sittings[i].stage.Waiting? &&
      (w.sittings[i].priorRetain.Some? ==>
        w.sittings[i].priorRetain.value < |w.sittings| && w.sittings[w.sittings[i].priorRetain.value].first.Some?)
    case Got(i, _) => i < |w.sittings| && w.sittings[i].op.Reading?
    case PutDone(i, _) => i < |w.sittings| && w.sittings[i].op.Writing?
    case Linked(i, _) => i < |w.sittings| && w.sittings[i].op.Linking?
    case LastGo(i) => i < |w.sittings| && w.sittings[i].stage.Between? &&
      (w.sittings[i].priorTeardown.Some? ==>
        w.sittings[i].priorTeardown.value < |w.sittings| && w.sittings[w.sittings[i].priorTeardown.value].stage.Torn?)
    case TeardownPopped => w.closing.Some? && w.closing.value < |w.sittings| && w.sittings[w.closing.value].stage.Torn?
  }

  function Step(w: World, e: Event): World
    requires Enabled(w, e)
  {
    match e
    case Begin => BeginStep(w)
    case StartFails(i) =>
      Set(w, i, w.sittings[i].(stage := Torn, failed := true, priorRetain := None, priorTeardown := None))
    case StartDone(i) => Set(w, i, w.sittings[i].(stage := Live))
    case Push(i, pcm) =>
      Set(w, i, w.sittings[i].(buffer := w.sittings[i].buffer + pcm, pushed := w.sittings[i].pushed + pcm))
    case Close(i) => Set(w, i, w.sittings[i].(stage := Waiting)).(closing := Some(i))
    case FirstGo(i) => FirstGoStep(w, i)
    case Got(i, ok) =>
      Set(w, i, if ok then w.sittings[i].(op := Writing(w.stored, w.sittings[i].op.taken))
                else Over(w.sittings[i], false))
    case PutDone(i, ok) => PutStep(w, i, ok)
    case Linked(i, ok) => Set(w, i, Over(w.sittings[i], ok))
    case LastGo(i) => Set(w, i, Retain(w.sittings[i].(priorTeardown := None, stage := Last)))
    case TeardownPopped => w.(closing := None)
  }

  // ---- What the claim assumes ----------------------------------------------

  /** Audio reached this sitting after its first retain took the buffer: only its last retain stores it. */
  predicate Late(s: Sitting) {
    || ((s.op.Reading? || s.op.Writing?) && s.stage.First? && |s.buffer| != |s.op.taken|)
    || (s.op.Linking? && s.stage.First? && s.buffer != [])
    || (s.stage.Between? && s.first == Some(true) && s.buffer != [])
    || (s.stage.Last? && s.first == Some(true) && s.buffer != [])
  }

  predicate NoLate(w: World) {
    forall k :: 0 <= k < |w.sittings| ==> !Late(w.sittings[k])
  }

  /**
   * Audio only reaches the newest sitting, and not once its last retain has begun; a teardown ends
   * with its audio stored; and no sitting is resumed while audio that came late waits for its last retain.
   */
  predicate Clean(w: World, e: Event)
    requires Enabled(w, e)
  {
    match e
    case Push(i, _) => i == |w.sittings| - 1 && !w.sittings[i].stage.Last? && !w.sittings[i].stage.Torn?
    case Got(i, _) => Step(w, e).sittings[i].stage.Torn? ==> Step(w, e).sittings[i].buffer == []
    case PutDone(i, _) => Step(w, e).sittings[i].stage.Torn? ==> Step(w, e).sittings[i].buffer == []
    case Linked(i, _) => Step(w, e).sittings[i].stage.Torn? ==> Step(w, e).sittings[i].buffer == []
    case Begin => NoLate(w)
    case _ => true
  }

  ghost predicate IsCleanRun(w: World, run: seq<Event>, end: World)
    decreases |run|
  {
    if |run| == 0 then end == w
    else Enabled(w, run[0]) && Clean(w, run[0]) && IsCleanRun(Step(w, run[0]), run[1..], end)
  }

  // ---- What every clean run keeps ------------------------------------------

  /** What has been stored of a sitting's audio: all it was given but what is still buffered. */
  function StoredPart(s: Sitting): seq<int> {
    if |s.buffer| <= |s.pushed| then s.pushed[..|s.pushed| - |s.buffer|] else []
  }

  function StoredParts(sittings: seq<Sitting>): seq<int> {
    if |sittings| == 0 then [] else StoredParts(sittings[..|sittings| - 1]) + StoredPart(sittings[|sittings| - 1])
  }

  /** Every sitting's audio, in sitting order. */
  function Recorded(sittings: seq<Sitting>): seq<int> {
    if |sittings| == 0 then [] else Recorded(sittings[..|sittings| - 1]) + sittings[|sittings| - 1].pushed
  }

  /** No sitting before i has audio left to store. */
  ghost predicate ClearBehind(sittings: seq<Sitting>, i: nat)
    requires i <= |sittings|
  {
    forall k :: 0 <= k < i ==> sittings[k].buffer == []
  }

  /** Every sitting strictly between is a start that failed, with no audio of its own. */
  ghost predicate FailedBetween(sittings: seq<Sitting>, p: nat, i: nat)
    requires i <= |sittings|
  {
    forall k :: p < k < i ==> sittings[k].failed
  }

  /** A sitting not waiting for an earlier one has nothing unstored behind it; one that waits has stored nothing. */
  ghost predicate Ordered(sittings: seq<Sitting>, i: nat)
    requires i < |sittings|
  {
    var s := sittings[i];
    && (!s.failed && s.priorTeardown.None? ==> ClearBehind(sittings, i))
    && (s.priorTeardown.Some? ==> Follows(sittings, s.priorTeardown.value, i) && Unstored(s))
    && (s.stage.Starting? || s.stage.Live? || s.stage.Waiting? ==> s.priorRetain == s.priorTeardown)
    && (s.priorRetain.Some? ==> s.stage.Starting? || s.stage.Live? || s.stage.Waiting?)
  }

  /** Sitting i resumed sitting p: only failed starts come between. */
  ghost predicate Follows(sittings: seq<Sitting>, p: nat, i: nat)
    requires i < |sittings|
  {
    p < i && !sittings[p].failed && FailedBetween(sittings, p, i)
  }

  /** A sitting still waiting for the one it resumed has begun no retain, or gave its first one up. */
  predicate Unstored(s: Sitting) {
    && s.buffer == s.pushed && !s.stage.First? && !s.stage.Last? && !s.stage.Torn?
    && (s.stage.Between? ==> s.first == Some(false))
  }

  /** One sitting's own record hangs together; `newest` tells whether it is the last to have started. */
  ghost predicate SittingOk(s: Sitting, stored: seq<int>, newest: bool, closed: bool) {
    && |s.buffer| <= |s.pushed| && s.buffer == s.pushed[|s.pushed| - |s.buffer|..]
    && (s.failed ==> s.pushed == [] && s.stage.Torn? && s.op.Idle?)
    && (s.stage.Starting? ==> s.pushed == [])
    && (s.op.Idle? <==> !s.stage.First? && !s.stage.Last?)
    && (s.stage.Starting? || s.stage.Live? || s.stage.Waiting? || s.stage.First? ==> s.first.None?)
    && (s.stage.Between? || s.stage.Last? ==> s.first.Some?)
    && (s.stage.Torn? && !s.failed ==> s.buffer == [] && s.first.Some?)
    && (s.op.Reading? || s.op.Writing? ==> s.op.taken != [] && s.op.taken <= s.buffer)
    && (s.op.Writing? ==> s.op.existing == stored)
    && (s.stage.Last? ==> if s.op.Linking? then s.buffer == [] else s.op.taken == s.buffer)
    && (!newest ==> s.Closed() && !Late(s))
    && (newest && s.Closed() && !s.failed && !s.stage.Torn? ==> closed)
  }

  ghost predicate OkAt(w: World, i: nat)
    requires i < |w.sittings|
  {
    SittingOk(w.sittings[i], w.stored, i == |w.sittings| - 1, w.closing == Some(i))
  }

  ghost predicate ClosingOk(w: World) {
    && (w.closing.Some? ==>
         && w.closing.value < |w.sittings|
         && w.sittings[w.closing.value].Closed() && !w.sittings[w.closing.value].failed
         && (forall k :: w.closing.value < k < |w.sittings| ==> w.sittings[k].failed || !w.sittings[k].Closed()))
    && (w.closing.None? ==> forall k :: 0 <= k < |w.sittings| && w.sittings[k].Closed() ==> w.sittings[k].buffer == [])
  }

  ghost predicate AllOk(w: World) {
    forall i :: 0 <= i < |w.sittings| ==> OkAt(w, i)
  }

  ghost predicate AllOrdered(sittings: seq<Sitting>) {
    forall i :: 0 <= i < |sittings| ==> Ordered(sittings, i)
  }

  ghost predicate Inv(w: World) {
    AllOk(w) && AllOrdered(w.sittings) && ClosingOk(w) && w.stored == StoredParts(w.sittings)
  }
}
