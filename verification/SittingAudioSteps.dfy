/** The steps of SittingAudio as the code takes them, on the buffers and the store they update in place. */
module SittingAudioSteps {
  import opened Prelude
  import opened SittingAudio

  class Recording {
    var stored: seq<int>
    var sittings: seq<Sitting>
    var closing: Option<nat>

    ghost function View(): World
      reads this
    {
      World(stored, sittings, closing)
    }

    constructor ()
      ensures View() == EMPTY
    {
      stored, sittings, closing := [], [], None;
    }

    /** `_resume_offset_ms`: a resume landing mid-teardown keeps the closing sitting's tasks to wait on. */
    method BeginSitting()
      modifies this
      ensures View() == BeginStep(old(View()))
    {
      var newest := Sitting(Starting, Idle, None, [], false, None, None, []);
      if closing.Some? {
        newest := newest.(priorRetain := closing, priorTeardown := closing);
      }
      sittings := sittings + [newest];
    }

    /** `on_audio`. */
    method PushAudio(i: nat, pcm: seq<int>)
      requires Enabled(View(), Push(i, pcm))
      modifies this`sittings
      ensures View() == Step(old(View()), Push(i, pcm))
    {
      var s := sittings[i];
      s := s.(buffer := s.buffer + pcm);
      s := s.(pushed := s.pushed + pcm);
      sittings := sittings[i := s];
    }

    /** `close`, which only a sitting that started registers in `_closing`. */
    method CloseSitting(i: nat, startFailed: bool)
      requires Enabled(View(), if startFailed then StartFails(i) else Close(i))
      modifies this
      ensures View() == Step(old(View()), if startFailed then StartFails(i) else Close(i))
    {
      var s := sittings[i];
      if startFailed {
        sittings := sittings[i := s.(stage := Torn, failed := true, priorRetain := None, priorTeardown := None)];
      } else {
        sittings := sittings[i := s.(stage := Waiting)];
        closing := Some(i);
      }
    }

    /** `_retain_audio_after_prior`, once the retain it waits for is over, up to reading the store. */
    method RetainAfterPrior(i: nat)
      requires Enabled(View(), FirstGo(i))
      modifies this`sittings
      ensures View() == FirstGoStep(old(View()), i)
    {
      var s := sittings[i];
      var prior := s.priorRetain;
      s := s.(priorRetain := None);
      if prior.Some? {
        if sittings[prior.value].first == Some(false) {
          sittings := sittings[i := s.(stage := Between, first := Some(false))];
          return;
        }
      }
      s := s.(priorTeardown := None, stage := First);
      s := TakeBuffer(s);
      sittings := sittings[i := s];
    }

    /** `_persist`, once the teardown it waits for is over, up to reading the store. */
    method RetainRemainder(i: nat)
      requires Enabled(View(), LastGo(i))
      modifies this`sittings
      ensures View() == Step(old(View()), LastGo(i))
    {
      var s := sittings[i];
      s := s.(priorTeardown := None, stage := Last);
      s := TakeBuffer(s);
      sittings := sittings[i := s];
    }

    /** `_persist_audio`'s start: an empty buffer goes straight to linking the key. */
    method TakeBuffer(s: Sitting) returns (t: Sitting)
      ensures t == Retain(s)
    {
      if s.buffer == [] {
        return s.(op := Linking);
      }
      return s.(op := Reading(s.buffer));
    }

    /** The put and the trim behind it: only what was written leaves the buffer. */
    method PutAndTrim(i: nat, ok: bool)
      requires Enabled(View(), PutDone(i, ok))
      modifies this
      ensures View() == PutStep(old(View()), i, ok)
    {
      var s := sittings[i];
      if !ok {
        sittings := sittings[i := Over(s, false)];
        return;
      }
      var pcm := s.op.existing + s.op.taken;
      var taken := |s.op.taken|;
      stored := pcm;
      if taken <= |s.buffer| {
        s := s.(buffer := s.buffer[taken..]);
      } else {
        s := s.(buffer := []);
      }
      sittings := sittings[i := s.(op := Linking)];
    }
  }
}
