/**
 * What each retain does to the store over clean runs of SittingAudio: none is skipped but for the
 * failure it must be skipped for, each stored put adds exactly what it took, and the only way a
 * teardown ends with audio unstored is a failed call of its last retain.
 */
module SittingAudioRetains {
  import opened Prelude
  import opened SittingAudio
  import SittingAudioOrder

  /** Every sitting but i is as it was. */
  predicate OthersSame(w: World, t: World, i: nat) {
    |w.sittings| == |t.sittings| && forall k :: 0 <= k < |w.sittings| && k != i ==> t.sittings[k] == w.sittings[k]
  }

  /** A retain under way: it takes all that is buffered, or goes on to the key when nothing is. */
  predicate Takes(s: Sitting, u: Sitting) {
    u.buffer == s.buffer && u.op == (if s.buffer == [] then Linking else Reading(s.buffer))
  }

  /**
   * A sitting resumed mid-teardown waits for the sitting before it that is still tearing down, none but
   * failed starts between them; one that waits for nobody finds all audio stored.
   */
  lemma NewcomerWaits(run: seq<Event>, w: World)
    requires IsCleanRun(EMPTY, run, w) && Enabled(w, Begin)
    ensures var n, t := |w.sittings|, Step(w, Begin);
      && |t.sittings| == n + 1 && t.sittings[..n] == w.sittings && t.stored == w.stored
      && (forall p: nat :: t.sittings[n].priorTeardown == Some(p) || t.sittings[n].priorRetain == Some(p) ==>
           Follows(t.sittings, p, n) && w.closing == Some(p))
      && (t.sittings[n].priorTeardown.None? || t.sittings[n].priorRetain.None? ==> ClearBehind(w.sittings, n))
  {
    SittingAudioOrder.RunsKeep(EMPTY, run, w);
  }

  /**
   * A first retain is given up exactly when the sitting it waits for could not store its own: that
   * sitting's audio is stored only at the end of its teardown, so this one's waits for its own end.
   */
  lemma GivesUpIff(run: seq<Event>, w: World, i: nat)
    requires IsCleanRun(EMPTY, run, w) && Enabled(w, FirstGo(i))
    ensures var s, t := w.sittings[i], Step(w, FirstGo(i));
      && OthersSame(w, t, i) && t.stored == w.stored
      && (t.sittings[i].first.Some? <==> exists p: nat :: Failed(w.sittings, p, i))
      && (if t.sittings[i].first.Some? then
            t.sittings[i] == s.(stage := Between, first := Some(false), priorRetain := None)
          else t.sittings[i].stage.First? && Takes(s, t.sittings[i]) && ClearBehind(w.sittings, i))
  {
    SittingAudioOrder.RunsKeep(EMPTY, run, w);
    SittingAudioOrder.StepKeeps(w, FirstGo(i));
    var s := w.sittings[i];
    assert OkAt(w, i) && Ordered(w.sittings, i) && Ordered(Step(w, FirstGo(i)).sittings, i);
    if s.priorRetain.Some? {
      assert Failed(w.sittings, s.priorRetain.value, i) <==> w.sittings[s.priorRetain.value].first == Some(false);
    }
  }

  /** Sitting p's first retain failed, and i, which resumed it, waits for it. */
  ghost predicate Failed(sittings: seq<Sitting>, p: nat, i: nat)
    requires i < |sittings|
  {
    sittings[i].priorRetain == Some(p) && Follows(sittings, p, i) && sittings[p].first == Some(false)
  }

  /** The last retain takes what the first left, once the teardown it waits for is over. */
  lemma LastTakes(run: seq<Event>, w: World, i: nat)
    requires IsCleanRun(EMPTY, run, w) && Enabled(w, LastGo(i))
    ensures var s, t := w.sittings[i], Step(w, LastGo(i));
      && OthersSame(w, t, i) && t.stored == w.stored
      && t.sittings[i].stage.Last? && Takes(s, t.sittings[i]) && ClearBehind(w.sittings, i)
  {
    SittingAudioOrder.RunsKeep(EMPTY, run, w);
    SittingAudioOrder.StepKeeps(w, LastGo(i));
    var t := Step(w, LastGo(i));
    assert OkAt(w, i) && Ordered(t.sittings, i) && ClearBehind(t.sittings, i);
    SittingAudioOrder.ClearFrame(t.sittings, w.sittings, i);
  }

  /**
   * A put stores exactly what its retain took behind everything stored by then, and just that leaves
   * the buffer: audio that came during the awaits stays. A put that fails stores and drops nothing.
   */
  lemma PutExtends(run: seq<Event>, w: World, i: nat, ok: bool)
    requires IsCleanRun(EMPTY, run, w) && Enabled(w, PutDone(i, ok))
    ensures var s, t, taken := w.sittings[i], Step(w, PutDone(i, ok)), w.sittings[i].op.taken;
      && OthersSame(w, t, i) && taken != [] && t.sittings[i].pushed == s.pushed
      && (if ok then t.stored == w.stored + taken && s.buffer == taken + t.sittings[i].buffer
          else t.stored == w.stored && t.sittings[i].buffer == s.buffer)
  {
    SittingAudioOrder.RunsKeep(EMPTY, run, w);
    assert OkAt(w, i);
  }

  /** The call of i's retain that ends, and how. */
  predicate Ends(e: Event, i: nat, ok: bool) {
    e == Got(i, ok) || e == PutDone(i, ok) || e == Linked(i, ok)
  }

  /** A first retain reports success exactly when its last call succeeds, failure as soon as one fails. */
  lemma FirstReports(run: seq<Event>, w: World, i: nat, e: Event, ok: bool)
    requires IsCleanRun(EMPTY, run, w) && Enabled(w, e) && Ends(e, i, ok) && w.sittings[i].stage.First?
    ensures var first := Step(w, e).sittings[i].first;
      && (first == Some(true) <==> e == Linked(i, true))
      && (first == Some(false) <==> !ok)
      && (Step(w, e).sittings[i].stage.Between? <==> first.Some?)
  {
    SittingAudioOrder.RunsKeep(EMPTY, run, w);
    assert OkAt(w, i);
  }

  /**
   * What a clean run assumes of the ends of teardowns comes to this: the last retain's reads and puts
   * succeed. Linking the key may fail; the audio is stored by then.
   */
  lemma CleanIffStored(run: seq<Event>, w: World, i: nat, e: Event, ok: bool)
    requires IsCleanRun(EMPTY, run, w) && Enabled(w, e) && Ends(e, i, ok)
    ensures Clean(w, e) <==> ok || e.Linked? || w.sittings[i].stage.First?
    ensures w.sittings[i].stage.Last? && e == PutDone(i, true) ==> Step(w, e).sittings[i].buffer == []
  {
    SittingAudioOrder.RunsKeep(EMPTY, run, w);
    assert OkAt(w, i);
  }
}
