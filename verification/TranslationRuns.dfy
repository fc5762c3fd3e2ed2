/** The session's translation fields as its methods update them, proved against the steps of Translation. */
module TranslationRuns {
  import opened Prelude
  import opened Translation

  class Runs {
    const sourceFixed: bool
    var active: bool
    var runLang: Lang
    var hold: bool
    var pending: Option<Final>
    var queue: seq<Job>
    var busy: Option<Job>
    var over: bool
    var sent: seq<Frame>
    var runs: nat
    ghost var taken: seq<Job>
    ghost var answers: seq<bool>

    /** All that was queued: what the worker has had, then what waits. */
    ghost function View(): State
      reads this
    {
      State(sourceFixed, active, runLang, hold, pending, runs, taken + queue, |taken|, busy.Some?, over, answers, sent)
    }

    ghost predicate Valid()
      reads this
    {
      busy.Some? ==> |taken| > 0 && taken[|taken| - 1] == busy.value
    }

    constructor (sourceFixed: bool)
      ensures Valid() && View() == Fresh(sourceFixed)
    {
      this.sourceFixed := sourceFixed;
      active, runLang, hold, pending, queue, busy, over, sent := false, English, false, None, [], None, false, [];
      runs, taken, answers := 0, [], [];
    }

    method Put(job: Job)
      requires Valid()
      modifies this`queue
      ensures Valid() && View() == Queue(old(View()), job)
    {
      assert taken + (queue + [job]) == (taken + queue) + [job];
      queue := queue + [job];
    }

    method TouchHold()
      requires Valid()
      modifies this`hold
      ensures Valid() && View() == if active then old(View()).(hold := true) else old(View())
    {
      if !active {
        return;
      }
      hold := true;
    }

    method OpenRun(f: Final, lang: Lang, held: bool)
      requires Valid()
      modifies this
      ensures Valid() && View() == Open(old(View()), f, lang, held)
    {
      runs := if active then runs else runs + 1;
      pending, active, runLang := None, true, lang;
      TouchHold();
      Put(Translate(f, lang, runs, held));
    }

    method EndRun()
      requires Valid()
      modifies this
      ensures Valid() && View() == End(old(View()))
    {
      if !active {
        return;
      }
      active, hold := false, false;
      Put(Done);
    }

    /** `_consider_translation`. */
    method ConsiderTurn(f: Final)
      requires Valid()
      modifies this
      ensures Valid() && View() == Consider(old(View()), f)
    {
      if f.lang.Some? && f.lang.value.Other? && !active && !sourceFixed {
        if f.textLang == Some(English) || (f.textLang.None? && !f.leans) {
          return;
        }
        var confirms := pending.Some? && pending.value.lang == f.lang
          && f.startMs - pending.value.endMs <= PENDING_OPENER_MS;
        if f.textLang.None? && !confirms {
          pending := Some(f);
          return;
        }
        if confirms {
          OpenRun(pending.value, f.lang.value, true);
        }
      }
      if f.lang.Some? && f.lang.value.Other? {
        OpenRun(f, f.lang.value, false);
      } else if f.lang.Some? {
        pending := None;
        if active {
          EndRun();
        }
      } else if active {
        TouchHold();
        Put(Translate(f, runLang, runs, false));
      }
    }

    /** The worker's `get`. */
    method TakeJob()
      requires Valid() && Enabled(View(), Take) && |queue| > 0
      modifies this
      ensures Valid() && View() == Step(old(View()), Take)
    {
      busy := Some(queue[0]);
      assert (taken + [queue[0]]) + queue[1..] == taken + queue;
      taken := taken + [queue[0]];
      queue := queue[1..];
    }

    /** The worker's job done: what it sends is remembered by the client in this order. */
    method FinishJob(kept: bool)
      requires Valid() && Enabled(View(), Answer(kept))
      modifies this
      ensures Valid() && View() == Step(old(View()), Answer(kept))
    {
      assert (taken + queue)[|taken| - 1] == busy.value;
      match busy.value {
        case Done => sent := sent + [RunDone];
        case Translate(f, _, _, _) =>
          if kept {
            sent := sent + [Translated(f.id)];
          }
        case Stop =>
      }
      busy := None;
      answers := answers + [kept];
    }

    /** `resend_ended_asides`: a done marker again, but never into a run under way. */
    method ResendDone()
      requires Valid()
      modifies this
      ensures Valid() && View() == Step(old(View()), ResendAsides)
    {
      if !active {
        Put(Done);
      }
    }

    /** The teardown's end of translation: close the run, then let the worker drain and stop. */
    method StopWorker()
      requires Valid() && Enabled(View(), Teardown)
      modifies this
      ensures Valid() && View() == Step(old(View()), Teardown)
    {
      EndRun();
      Put(Stop);
      over := true;
    }
  }
}
