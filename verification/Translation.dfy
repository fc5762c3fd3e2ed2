/**
 * Translation runs (api/src/api/session.py): a turn in another language opens a run or extends it,
 * an English turn or silence ends it, a doubtful opener is held until a second turn confirms it, and
 * one worker takes the queued jobs in turn.
 */
module Translation {
  import opened Prelude

  const PENDING_OPENER_MS: int := 8000

  datatype Lang = English | Other(code: nat)

  /**
   * A finalized turn: the engine's language, the language its text reads as, and whether its words
   * lean enough toward the engine's language to hold it as an opener.
   */
  datatype Final = Final(id: nat, startMs: int, endMs: int, lang: Option<Lang>, textLang: Option<Lang>, leans: bool)

  /** `run` numbers the runs and `held` marks a held opener, for the claims; the worker needs neither. */
  datatype Job = Translate(final: Final, runLang: Lang, run: nat, held: bool) | Done | Stop

  datatype Frame = Translated(id: nat) | RunDone

  /** `history` is every job ever queued, `taken` how many the worker has been given, `sent` its frames. */
  datatype State = State(
    sourceFixed: bool, active: bool, runLang: Lang, hold: bool, pending: Option<Final>, runs: nat, history: seq<Job>,
    taken: nat, busy: bool, over: bool, answers: seq<bool>, sent: seq<Frame>)

  function Fresh(sourceFixed: bool): State {
    State(sourceFixed, false, English, false, None, 0, [], 0, false, false, [], [])
  }

  // ---- What each step does -------------------------------------------------

  function Queue(s: State, job: Job): State { s.(history := s.history + [job]) }

  /** `_open_translation_run`. */
  function Open(s: State, f: Final, lang: Lang, held: bool): State {
    var run := if s.active then s.runs else s.runs + 1;
    var t := s.(pending := None, active := true, runLang := lang, hold := true, runs := run);
    Queue(t, Translate(f, lang, run, held))
  }

  function End(s: State): State {
    if s.active then Queue(s.(active := false, hold := false), Done) else s
  }

  /** A turn that would open a run has to be judged by its text first. */
  predicate Doubted(s: State, f: Final) {
    f.lang.Some? && f.lang.value.Other? && !s.active && !s.sourceFixed
  }

  predicate Rejected(f: Final) { f.textLang == Some(English) || (f.textLang.None? && !f.leans) }

  predicate Confirms(s: State, f: Final) {
    s.pending.Some? && s.pending.value.lang == f.lang && f.startMs - s.pending.value.endMs <= PENDING_OPENER_MS
  }

  /** `_consider_translation`. */
  function Consider(s: State, f: Final): State {
    if f.lang.None? then (if s.active then Queue(s.(hold := true), Translate(f, s.runLang, s.runs, false)) else s)
    else if f.lang.value.English? then End(s.(pending := None))
    else if Doubted(s, f) && Rejected(f) then s
    else if Doubted(s, f) && f.textLang.None? && !Confirms(s, f) then s.(pending := Some(f))
    else if Doubted(s, f) && Confirms(s, f)
    then Open(Open(s, s.pending.value, f.lang.value, true), f, f.lang.value, false)
    else Open(s, f, f.lang.value, false)
  }

  datatype Event =
    | Turn(f: Final) | Partial | HoldExpires | Take | Answer(kept: bool) | ResendAsides | Teardown

  predicate Enabled(s: State, e: Event) {
    match e
    case Turn(_) => !s.over
    case Partial => !s.over
    case HoldExpires => s.hold
    case Take => !s.busy && s.taken < |s.history| && (s.taken > 0 ==> !s.history[s.taken - 1].Stop?)
    case Answer(_) => s.busy
    case ResendAsides => true
    case Teardown => !s.over
  }

  /** The frame a job ends in, if any: a dropped, failed or echoed translation sends none. */
  function FrameOf(job: Job, kept: bool): seq<Frame> {
    match job
    case Translate(f, _, _, _) => if kept then [Translated(f.id)] else []
    case Done => [RunDone]
    case Stop => []
  }

  function Step(s: State, e: Event): State
    requires Enabled(s, e)
  {
    match e
    case Turn(f) => Consider(s, f)
    case Partial => if s.active then s.(hold := true) else s
    case HoldExpires => End(s)
    case Take => s.(taken := s.taken + 1, busy := true)
    case Answer(kept) =>
      if 0 < s.taken <= |s.history|
      then s.(busy := false, answers := s.answers + [kept],
              sent := s.sent + FrameOf(s.history[s.taken - 1], kept))
      else s
    case ResendAsides => if s.active then s else Queue(s, Done)
    case Teardown => Queue(End(s), Stop).(over := true)
  }

  /** Turns come in transcript order: each later in the transcript than every one before. */
  ghost predicate IsRun(s: State, next: nat, run: seq<Event>, end: State)
    decreases |run|
  {
    if |run| == 0 then end == s
    else
      && Enabled(s, run[0]) && (run[0].Turn? ==> next <= run[0].f.id)
      && IsRun(Step(s, run[0]), if run[0].Turn? then run[0].f.id + 1 else next, run[1..], end)
  }

  // ---- What every queue history satisfies ----------------------------------

  predicate Continues(h: seq<Job>, k: nat)
    requires k < |h|
  {
    k > 0 && h[k - 1].Translate?
  }

  /** A translation follows one of its own run, or is the first of its run; a stop follows none. */
  ghost predicate JobOk(h: seq<Job>, k: nat, sourceFixed: bool)
    requires k < |h|
  {
    && (h[k].Stop? ==> !Continues(h, k))
    && (h[k].Translate? ==>
      && (Continues(h, k) ==> h[k - 1].run == h[k].run)
      && (!Continues(h, k) ==> Opener(h[k], sourceFixed))
      && (h[k].final.lang.None? ==> Continues(h, k) && h[k].runLang == h[k - 1].runLang)
      && (h[k].final.lang.Some? ==> h[k].final.lang.value == h[k].runLang && h[k].runLang.Other?)
      && (h[k].held ==> !Continues(h, k) && k + 1 < |h| && Confirmed(h[k], h[k + 1])))
  }

  /**
   * What opens a run is no inherited turn, and reads as its language unless the source was fixed or
   * a turn confirmed it.
   */
  predicate Opener(job: Job, sourceFixed: bool)
    requires job.Translate?
  {
    && job.final.lang.Some?
    && (sourceFixed || (job.held && job.final.textLang.None? && job.final.leans)
        || (job.final.textLang.Some? && job.final.textLang.value.Other?))
  }

  predicate Confirmed(opener: Job, next: Job)
    requires opener.Translate?
  {
    && next.Translate? && !next.held && next.final.lang == opener.final.lang
    && next.final.startMs - opener.final.endMs <= PENDING_OPENER_MS
  }

  /** Each final is queued at most once and in transcript order. */
  ghost predicate InOrder(h: seq<Job>) {
    forall i, j :: 0 <= i < j < |h| && h[i].Translate? && h[j].Translate? ==> h[i].final.id < h[j].final.id
  }

  /** Runs come one after the other: what lies between two translations of one run is of that run too. */
  ghost predicate RunsContiguous(h: seq<Job>) {
    && (forall i, j :: 0 <= i < j < |h| && h[i].Translate? && h[j].Translate? ==> h[i].run <= h[j].run)
    && (forall i, k, j :: 0 <= i < k < j < |h| && h[i].Translate? && h[j].Translate? && h[i].run == h[j].run ==>
          h[k].Translate? && h[k].run == h[i].run)
  }

  /** What the worker sent for the jobs it finished. */
  function Sent(h: seq<Job>, answers: seq<bool>): seq<Frame>
    requires |answers| <= |h|
  {
    if |answers| == 0 then [] else
      Sent(h, answers[..|answers| - 1]) + FrameOf(h[|answers| - 1], answers[|answers| - 1])
  }

  ghost predicate HistoryOk(h: seq<Job>, sourceFixed: bool) {
    (forall k :: 0 <= k < |h| ==> JobOk(h, k, sourceFixed)) && InOrder(h) && RunsContiguous(h)
  }

  ghost predicate QueuedBefore(h: seq<Job>, next: nat) {
    forall k :: 0 <= k < |h| && h[k].Translate? ==> h[k].final.id < next
  }

  predicate LastTranslates(h: seq<Job>) { |h| > 0 && h[|h| - 1].Translate? }

  /** The state of the run goes by the last job queued; all queued finals come before `next`. */
  ghost predicate RunOk(s: State, next: nat) {
    && QueuedBefore(s.history, next)
    && (s.active <==> LastTranslates(s.history))
    && (s.active ==> s.history[|s.history| - 1].run == s.runs && s.history[|s.history| - 1].runLang == s.runLang)
    && (forall k :: 0 <= k < |s.history| && s.history[k].Translate? ==> s.history[k].run <= s.runs)
    && (s.active <==> s.hold) && (s.active ==> s.pending.None?)
    && (s.pending.Some? ==> HeldOk(s, next))
    && (s.over ==> !s.active)
  }

  /** The worker has sent what the jobs it finished ended in, and holds at most one more. */
  ghost predicate WorkerOk(s: State) {
    && s.taken == |s.answers| + (if s.busy then 1 else 0) && s.taken <= |s.history|
    && s.sent == Sent(s.history, s.answers)
  }

  ghost predicate Inv(s: State, next: nat) { HistoryOk(s.history, s.sourceFixed) && RunOk(s, next) && WorkerOk(s) }

  /** The held opener comes after all that is queued, and has nothing but its lean to go by. */
  ghost predicate HeldOk(s: State, next: nat)
    requires s.pending.Some?
  {
    var f := s.pending.value;
    && f.id < next && QueuedBefore(s.history, f.id)
    && f.lang.Some? && f.lang.value.Other? && f.textLang.None? && f.leans
  }
}
