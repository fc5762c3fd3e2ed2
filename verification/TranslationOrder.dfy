/** Every queue history keeps transcript order and whole runs, and the worker delivers in that order. */
module TranslationOrder {
  import opened Prelude
  import opened Translation

  // ---- Appending a job -----------------------------------------------------

  lemma {:induction false} SentFrame(h: seq<Job>, more: seq<Job>, answers: seq<bool>)
    requires |answers| <= |h|
    ensures Sent(h + more, answers) == Sent(h, answers)
    decreases |answers|
  {
    if |answers| > 0 { SentFrame(h, more, answers[..|answers| - 1]); }
  }

  /** A translation of the run under way, or of a new one after everything else. */
  lemma {:induction false} AppendTranslation(h: seq<Job>, job: Job, sourceFixed: bool, runs: nat)
    requires HistoryOk(h, sourceFixed) && job.Translate? && QueuedBefore(h, job.final.id) && !job.held
    requires forall k :: 0 <= k < |h| && h[k].Translate? ==> h[k].run <= runs
    requires if LastTranslates(h) then job.run == runs && h[|h| - 1].run == runs else job.run == runs + 1
    requires !LastTranslates(h) ==> Opener(job, sourceFixed)
    requires job.final.lang.None? ==> LastTranslates(h) && job.runLang == h[|h| - 1].runLang
    requires job.final.lang.Some? ==> job.final.lang.value == job.runLang && job.runLang.Other?
    ensures HistoryOk(h + [job], sourceFixed)
  {
    var t := h + [job];
    forall k | 0 <= k < |t| ensures JobOk(t, k, sourceFixed) {
      if k < |h| { assert JobOk(h, k, sourceFixed); }
    }
    forall i, k, j | 0 <= i < k < j < |t| && t[i].Translate? && t[j].Translate? && t[i].run == t[j].run
      ensures t[k].Translate? && t[k].run == t[i].run
    {
      if j == |h| && k < |h| - 1 { assert h[i].run == h[|h| - 1].run; }
    }
  }

  lemma {:induction false} AppendMarker(h: seq<Job>, job: Job, sourceFixed: bool)
    requires HistoryOk(h, sourceFixed) && !job.Translate? && (job.Stop? ==> !LastTranslates(h))
    ensures HistoryOk(h + [job], sourceFixed)
  {
    var t := h + [job];
    forall k | 0 <= k < |t| ensures JobOk(t, k, sourceFixed) {
      if k < |h| { assert JobOk(h, k, sourceFixed); }
    }
  }

  /** A held opener and the turn that confirms it, together the start of a new run. */
  lemma {:induction false} AppendConfirmed(h: seq<Job>, opener: Job, job: Job, sourceFixed: bool, runs: nat)
    requires HistoryOk(h, sourceFixed) && !LastTranslates(h) && opener.Translate? && job.Translate? && opener.held
    requires QueuedBefore(h, opener.final.id) && opener.final.id < job.final.id
    requires forall k :: 0 <= k < |h| && h[k].Translate? ==> h[k].run <= runs
    requires opener.run == job.run == runs + 1 && Opener(opener, sourceFixed) && Confirmed(opener, job)
    requires opener.final.lang == Some(opener.runLang) && job.runLang == opener.runLang && opener.runLang.Other?
    ensures HistoryOk(h + [opener, job], sourceFixed)
  {
    var t := h + [opener, job];
    forall k | 0 <= k < |t| ensures JobOk(t, k, sourceFixed) {
      if k < |h| { assert JobOk(h, k, sourceFixed); }
    }
  }

  // ---- Each step -----------------------------------------------------------

  /** Queueing more leaves the worker where it is. */
  lemma {:induction false} WorkerStays(s: State, t: State, more: seq<Job>)
    requires WorkerOk(s) && t.history == s.history + more
    requires t.taken == s.taken && t.busy == s.busy && t.answers == s.answers && t.sent == s.sent
    ensures WorkerOk(t)
  {
    SentFrame(s.history, more, s.answers);
  }

  lemma {:induction false} OpenKeeps(s: State, next: nat, f: Final, lang: Lang)
    requires Inv(s, next) && next <= f.id && f.lang == Some(lang) && lang.Other? && !s.over
    requires s.active || s.sourceFixed || (f.textLang.Some? && f.textLang.value.Other?)
    ensures Inv(Open(s, f, lang, false), f.id + 1)
  {
    var job := Translate(f, lang, if s.active then s.runs else s.runs + 1, false);
    var t := Open(s, f, lang, false);
    AppendTranslation(s.history, job, s.sourceFixed, s.runs);
    assert t.history == s.history + [job];
    OpenedRun(s, next, f, lang);
    WorkerStays(s, t, [job]);
  }

  lemma {:induction false} OpenedRun(s: State, next: nat, f: Final, lang: Lang)
    requires RunOk(s, next) && next <= f.id && !s.over
    ensures RunOk(Open(s, f, lang, false), f.id + 1)
  {}

  lemma {:induction false} MarkedRun(s: State, next: nat, job: Job)
    requires RunOk(s, next) && !job.Translate?
    ensures RunOk(Queue(s, job).(active := false, hold := false), next)
  {}

  lemma {:induction false} InheritKeeps(s: State, next: nat, f: Final)
    requires Inv(s, next) && next <= f.id && f.lang.None? && s.active
    ensures Inv(Consider(s, f), f.id + 1)
  {
    var job := Translate(f, s.runLang, s.runs, false);
    AppendTranslation(s.history, job, s.sourceFixed, s.runs);
    InheritedRun(s, next, f);
    WorkerStays(s, Consider(s, f), [job]);
  }

  lemma {:induction false} InheritedRun(s: State, next: nat, f: Final)
    requires RunOk(s, next) && next <= f.id && f.lang.None? && s.active
    ensures RunOk(Consider(s, f), f.id + 1)
  {}

  lemma {:induction false} ConfirmKeeps(s: State, next: nat, f: Final)
    requires Inv(s, next) && next <= f.id && Doubted(s, f) && Confirms(s, f) && !s.over
    ensures Inv(Open(Open(s, s.pending.value, f.lang.value, true), f, f.lang.value, false), f.id + 1)
  {
    var lang := f.lang.value;
    var opener := Translate(s.pending.value, lang, s.runs + 1, true);
    var job := Translate(f, lang, s.runs + 1, false);
    var t := Open(Open(s, s.pending.value, lang, true), f, lang, false);
    AppendConfirmed(s.history, opener, job, s.sourceFixed, s.runs);
    assert t.history == s.history + [opener, job];
    WorkerStays(s, t, [opener, job]);
  }

  lemma {:induction false} MarkKeeps(s: State, next: nat, job: Job)
    requires Inv(s, next) && !job.Translate? && (job.Stop? ==> !s.active)
    ensures Inv(Queue(s, job).(active := false, hold := false), next)
  {
    AppendMarker(s.history, job, s.sourceFixed);
    MarkedRun(s, next, job);
    WorkerStays(s, Queue(s, job).(active := false, hold := false), [job]);
  }

  lemma {:induction false} TurnKeeps(s: State, next: nat, f: Final)
    requires Inv(s, next) && next <= f.id && !s.over
    ensures Inv(Consider(s, f), f.id + 1)
  {
    if f.lang.None? {
      if s.active { InheritKeeps(s, next, f); }
    } else if f.lang.value.English? {
      if s.active { MarkKeeps(s.(pending := None), next, Done); }
    } else if Doubted(s, f) && Rejected(f) {
    } else if Doubted(s, f) && f.textLang.None? && !Confirms(s, f) {
    } else if Doubted(s, f) && Confirms(s, f) {
      ConfirmKeeps(s, next, f);
    } else {
      OpenKeeps(s, next, f, f.lang.value);
    }
  }

  lemma {:induction false} WorkerKeeps(s: State, next: nat, e: Event)
    requires Inv(s, next) && Enabled(s, e) && (e.Take? || e.Answer?)
    ensures Inv(Step(s, e), next)
  {
    if e.Answer? {
      var answers := s.answers + [e.kept];
      assert answers[..|answers| - 1] == s.answers;
    }
  }

  lemma {:induction false} PartialKeeps(s: State, next: nat)
    requires Inv(s, next) && Enabled(s, Partial)
    ensures Inv(Step(s, Partial), next)
  {}

  lemma {:induction false} ResendKeeps(s: State, next: nat)
    requires Inv(s, next)
    ensures Inv(Step(s, ResendAsides), next)
  {
    if !s.active { MarkKeeps(s, next, Done); }
  }

  lemma {:induction false} StepKeeps(s: State, next: nat, e: Event)
    requires Inv(s, next) && Enabled(s, e) && (e.Turn? ==> next <= e.f.id)
    ensures Inv(Step(s, e), if e.Turn? then e.f.id + 1 else next)
  {
    match e
    case Turn(f) => TurnKeeps(s, next, f);
    case Partial => PartialKeeps(s, next);
    case HoldExpires => EndKeeps(s, next);
    case Take => WorkerKeeps(s, next, e);
    case Answer(_) => WorkerKeeps(s, next, e);
    case ResendAsides => ResendKeeps(s, next);
    case Teardown => TeardownKeeps(s, next);
  }

  lemma {:induction false} TeardownKeeps(s: State, next: nat)
    requires Inv(s, next)
    ensures Inv(Queue(End(s), Stop).(over := true), next)
  {
    EndKeeps(s, next);
    MarkKeeps(End(s), next, Stop);
  }

  lemma {:induction false} EndKeeps(s: State, next: nat)
    requires Inv(s, next)
    ensures Inv(End(s), next)
  {
    if s.active { MarkKeeps(s, next, Done); }
  }

  lemma {:induction false} RunsKeep(s: State, next: nat, run: seq<Event>, end: State) returns (last: nat)
    requires Inv(s, next) && IsRun(s, next, run, end)
    ensures Inv(end, last)
    decreases |run|
  {
    last := next;
    if |run| > 0 {
      StepKeeps(s, next, run[0]);
      last := RunsKeep(Step(s, run[0]), if run[0].Turn? then run[0].f.id + 1 else next, run[1..], end);
    }
  }

  // ---- What it gives -------------------------------------------------------

  /**
   * Every queue history keeps transcript order, each final at most once, with each run's
   * translations together; a run under way always has its silence hold armed and nothing held back.
   */
  lemma QueueKeepsOrder(sourceFixed: bool, run: seq<Event>, s: State)
    requires IsRun(Fresh(sourceFixed), 0, run, s)
    ensures HistoryOk(s.history, sourceFixed)
    ensures (s.active <==> s.hold) && (s.active ==> s.pending.None?)
  {
    var next := RunsKeep(Fresh(sourceFixed), 0, run, s);
    SourceFixed(Fresh(sourceFixed), 0, run, s);
  }

  lemma {:induction false} SourceFixed(s: State, next: nat, run: seq<Event>, end: State)
    requires IsRun(s, next, run, end)
    ensures end.sourceFixed == s.sourceFixed
    decreases |run|
  {
    if |run| > 0 { SourceFixed(Step(s, run[0]), if run[0].Turn? then run[0].f.id + 1 else next, run[1..], end); }
  }

  /** Once a run is no longer under way, the job behind its last translation is its done marker. */
  lemma RunsAreClosed(sourceFixed: bool, run: seq<Event>, s: State, k: nat)
    requires IsRun(Fresh(sourceFixed), 0, run, s) && k < |s.history| && s.history[k].Translate?
    ensures k + 1 == |s.history| ==> s.active
    ensures k + 1 < |s.history| ==>
              s.history[k + 1] == Done || (s.history[k + 1].Translate? && s.history[k + 1].run == s.history[k].run)
  {
    var next := RunsKeep(Fresh(sourceFixed), 0, run, s);
    if k + 1 < |s.history| { assert JobOk(s.history, k + 1, s.sourceFixed); }
  }

  /** The worker has sent, in queue order, the frames of the jobs it finished, and holds at most the next one. */
  lemma WorkerDeliversInOrder(sourceFixed: bool, run: seq<Event>, s: State)
    requires IsRun(Fresh(sourceFixed), 0, run, s)
    ensures |s.answers| <= |s.history| && s.sent == Sent(s.history, s.answers)
    ensures s.taken == |s.answers| + (if s.busy then 1 else 0)
  {
    var next := RunsKeep(Fresh(sourceFixed), 0, run, s);
  }

  /** Translations in transcript order, each once. */
  ghost predicate Ascending(sent: seq<Frame>) {
    forall i, j :: 0 <= i < j < |sent| && sent[i].Translated? && sent[j].Translated? ==> sent[i].id < sent[j].id
  }

  ghost predicate AllBelow(sent: seq<Frame>, below: nat) {
    forall i :: 0 <= i < |sent| && sent[i].Translated? ==> sent[i].id < below
  }

  /** Sent translations come in transcript order, each once. */
  lemma {:induction false} SentAscends(h: seq<Job>, answers: seq<bool>, below: nat)
    requires |answers| <= |h| && InOrder(h)
    requires forall k :: 0 <= k < |answers| && h[k].Translate? ==> h[k].final.id < below
    ensures Ascending(Sent(h, answers)) && AllBelow(Sent(h, answers), below)
  {
    if |answers| > 0 {
      var n := |answers| - 1;
      SentAscends(h, answers[..n], if h[n].Translate? then h[n].final.id else below);
    }
  }
}
