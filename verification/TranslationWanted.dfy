/** Which turns are translated: every one that should be, and no other. */
module TranslationWanted {
  import opened Prelude
  import opened Translation
  import opened TranslationOrder

  // ---- Listening to a run --------------------------------------------------

  /**
   * What has been heard so far, without any queue: whether another language is being spoken, and the
   * last turn in one that nothing but its words told, while nothing has been translated or said in
   * English since.
   */
  datatype Ear = Ear(live: bool, undecided: Option<Final>)

  const SILENCE := Ear(false, None)

  predicate Foreign(f: Final) { f.lang.Some? && f.lang.value != English }

  predicate InEnglish(f: Final) { f.lang == Some(English) }

  /** A foreign turn that neither the run, nor the chosen source, nor its own text vouches for. */
  predicate Alone(ear: Ear, f: Final, sourceFixed: bool) {
    Foreign(f) && !ear.live && !sourceFixed && (f.textLang.None? || f.textLang == Some(English))
  }

  /** Its text decides nothing, but its words lean its way. */
  predicate Undecided(f: Final) { f.textLang.None? && f.leans }

  /** The undecided turn heard before was in the same language, and not long ago. */
  predicate Seconded(ear: Ear, f: Final) {
    && ear.undecided.Some? && ear.undecided.value.lang == f.lang
    && f.startMs - ear.undecided.value.endMs <= PENDING_OPENER_MS
  }

  /** A turn to translate: another language's, or one of no language among those. */
  predicate Wanted(ear: Ear, f: Final, sourceFixed: bool) {
    || (f.lang.None? && ear.live)
    || (Foreign(f) && !Alone(ear, f, sourceFixed))
    || (Alone(ear, f, sourceFixed) && Undecided(f) && Seconded(ear, f))
  }

  /** A turn that has the undecided one before it translated too: it opens a run in its language. */
  predicate WantsBoth(ear: Ear, f: Final, sourceFixed: bool) {
    Wanted(ear, f, sourceFixed) && Foreign(f) && !ear.live && !sourceFixed && Seconded(ear, f)
  }

  function Listen(ear: Ear, e: Event, sourceFixed: bool): Ear {
    match e
    case Turn(f) =>
      if InEnglish(f) then SILENCE
      else if f.lang.Some? && Wanted(ear, f, sourceFixed) then Ear(true, None)
      else if f.lang.Some? && Undecided(f) then Ear(false, Some(f))
      else ear
    case HoldExpires => ear.(live := false)
    case Teardown => ear.(live := false)
    case _ => ear
  }

  function Heard(ear: Ear, run: seq<Event>, sourceFixed: bool): Ear
    decreases |run|
  {
    if |run| == 0 then ear else Heard(Listen(ear, run[0], sourceFixed), run[1..], sourceFixed)
  }

  /** The turns an event has translated. */
  function WantedBy(ear: Ear, e: Event, sourceFixed: bool): seq<Final> {
    if !e.Turn? || !Wanted(ear, e.f, sourceFixed) then []
    else if WantsBoth(ear, e.f, sourceFixed) then [ear.undecided.value, e.f] else [e.f]
  }

  function AllWanted(ear: Ear, run: seq<Event>, sourceFixed: bool): seq<Final>
    decreases |run|
  {
    if |run| == 0 then []
    else WantedBy(ear, run[0], sourceFixed) + AllWanted(Listen(ear, run[0], sourceFixed), run[1..], sourceFixed)
  }

  // ---- What the queue has --------------------------------------------------

  /** The finals queued for translation, in queue order. */
  function Queued(h: seq<Job>): seq<Final> {
    if |h| == 0 then [] else
      Queued(h[..|h| - 1]) + (if h[|h| - 1].Translate? then [h[|h| - 1].final] else [])
  }

  lemma {:induction false} QueuedMore(h: seq<Job>, job: Job)
    ensures Queued(h + [job]) == Queued(h) + (if job.Translate? then [job.final] else [])
  {
    assert (h + [job])[..|h|] == h;
  }

  ghost predicate Matches(s: State, ear: Ear) {
    s.active == ear.live && s.pending == ear.undecided && (s.active ==> s.pending.None?)
  }

  lemma {:induction false} OpenQueues(s: State, f: Final, lang: Lang, held: bool)
    ensures Queued(Open(s, f, lang, held).history) == Queued(s.history) + [f]
  {
    QueuedMore(s.history, Translate(f, lang, if s.active then s.runs else s.runs + 1, held));
  }

  lemma {:induction false} EndQueues(s: State)
    ensures Queued(End(s).history) == Queued(s.history)
    ensures !End(s).active && End(s).pending == s.pending && End(s).sourceFixed == s.sourceFixed
  {
    if s.active { QueuedMore(s.history, Done); }
  }

  /** Two turns at once: the one held back, and the one that confirms it. */
  lemma {:induction false} BothQueue(s: State, opener: Final, f: Final, lang: Lang)
    ensures Queued(Open(Open(s, opener, lang, true), f, lang, false).history) == Queued(s.history) + [opener, f]
  {
    OpenQueues(s, opener, lang, true);
    OpenQueues(Open(s, opener, lang, true), f, lang, false);
    assert (Queued(s.history) + [opener]) + [f] == Queued(s.history) + [opener, f];
  }

  lemma {:induction false} TurnQueues(s: State, ear: Ear, f: Final)
    requires Matches(s, ear)
    ensures Queued(Consider(s, f).history) == Queued(s.history) + WantedBy(ear, Turn(f), s.sourceFixed)
  {
    var wanted := WantedBy(ear, Turn(f), s.sourceFixed);
    if f.lang.None? {
      if s.active { QueuedMore(s.history, Translate(f, s.runLang, s.runs, false)); }
    } else if f.lang.value.English? {
      EndQueues(s.(pending := None));
    } else if Doubted(s, f) && Rejected(f) {
      assert wanted == [];
    } else if Doubted(s, f) && f.textLang.None? && !Confirms(s, f) {
      assert wanted == [];
    } else if Doubted(s, f) && Confirms(s, f) {
      assert wanted == [s.pending.value, f];
      BothQueue(s, s.pending.value, f, f.lang.value);
    } else {
      assert wanted == [f];
      OpenQueues(s, f, f.lang.value, false);
    }
  }

  lemma {:induction false} TurnHeard(s: State, ear: Ear, f: Final)
    requires Matches(s, ear)
    ensures Matches(Consider(s, f), Listen(ear, Turn(f), s.sourceFixed))
    ensures Consider(s, f).sourceFixed == s.sourceFixed
  {}

  lemma {:induction false} TeardownQueues(s: State)
    ensures Queued(Queue(End(s), Stop).history) == Queued(s.history)
  {
    EndQueues(s);
    QueuedMore(End(s).history, Stop);
  }

  lemma {:induction false} StepQueues(s: State, ear: Ear, e: Event)
    requires Matches(s, ear) && Enabled(s, e)
    ensures Queued(Step(s, e).history) == Queued(s.history) + WantedBy(ear, e, s.sourceFixed)
  {
    match e
    case Turn(f) => TurnQueues(s, ear, f);
    case HoldExpires => EndQueues(s);
    case Teardown => TeardownQueues(s);
    case ResendAsides => QueuedMore(s.history, Done);
    case _ =>
  }

  lemma {:induction false} StepHeard(s: State, ear: Ear, e: Event)
    requires Matches(s, ear) && Enabled(s, e)
    ensures Matches(Step(s, e), Listen(ear, e, s.sourceFixed)) && Step(s, e).sourceFixed == s.sourceFixed
  {
    match e
    case Turn(f) => TurnHeard(s, ear, f);
    case _ =>
  }

  lemma Regroup(a: seq<Final>, b: seq<Final>, c: seq<Final>)
    ensures (a + b) + c == a + (b + c)
  {}

  lemma {:induction false} RunWanted(s: State, next: nat, ear: Ear, run: seq<Event>, end: State)
    requires Matches(s, ear) && IsRun(s, next, run, end)
    ensures Queued(end.history) == Queued(s.history) + AllWanted(ear, run, s.sourceFixed)
    ensures Matches(end, Heard(ear, run, s.sourceFixed))
    decreases |run|
  {
    if |run| > 0 {
      var e, t := run[0], Step(s, run[0]);
      StepQueues(s, ear, e);
      StepHeard(s, ear, e);
      RunWanted(t, if e.Turn? then e.f.id + 1 else next, Listen(ear, e, s.sourceFixed), run[1..], end);
      Regroup(Queued(s.history), WantedBy(ear, e, s.sourceFixed),
        AllWanted(Listen(ear, e, s.sourceFixed), run[1..], s.sourceFixed));
    }
  }

  // ---- What it gives -------------------------------------------------------

  /**
   * Over every run, the turns queued for translation are exactly the wanted ones, in the order they
   * came; and a run is under way exactly while another language is being spoken.
   */
  lemma WantedAreQueued(sourceFixed: bool, run: seq<Event>, s: State)
    requires IsRun(Fresh(sourceFixed), 0, run, s)
    ensures Queued(s.history) == AllWanted(SILENCE, run, sourceFixed)
    ensures s.active <==> Heard(SILENCE, run, sourceFixed).live
  {
    RunWanted(Fresh(sourceFixed), 0, SILENCE, run, s);
    assert Queued(Fresh(sourceFixed).history) + AllWanted(SILENCE, run, sourceFixed) ==
      AllWanted(SILENCE, run, sourceFixed);
  }

  /** An English turn always ends the run, as silence does: one done marker is queued, and nothing is held back. */
  lemma EnglishEnds(sourceFixed: bool, run: seq<Event>, s: State, e: Event)
    requires IsRun(Fresh(sourceFixed), 0, run, s) && Enabled(s, e)
    requires (e.Turn? && InEnglish(e.f)) || e.HoldExpires?
    ensures !Step(s, e).active && !Step(s, e).hold
    ensures Step(s, e).history == s.history + (if s.active then [Done] else [])
    ensures e.Turn? ==> Step(s, e).pending.None?
  {
    QueueKeepsOrder(sourceFixed, run, s);
  }

  /** A resumed socket gets a done marker again unless a run is under way; the teardown closes the run and the queue. */
  lemma MarkersQueued(sourceFixed: bool, run: seq<Event>, s: State)
    requires IsRun(Fresh(sourceFixed), 0, run, s)
    ensures Step(s, ResendAsides).history ==
              s.history + (if Heard(SILENCE, run, sourceFixed).live then [] else [Done])
    ensures !s.over ==>
              && Step(s, Teardown).over
              && Step(s, Teardown).history ==
                   s.history + (if Heard(SILENCE, run, sourceFixed).live then [Done, Stop] else [Stop])
  {
    WantedAreQueued(sourceFixed, run, s);
  }

  /** A wanted turn is translated in its own language, or the run's when it has none, and keeps the run going. */
  lemma WantedKeepsTheRun(sourceFixed: bool, run: seq<Event>, s: State, f: Final)
    requires IsRun(Fresh(sourceFixed), 0, run, s) && Enabled(s, Turn(f))
    requires Wanted(Heard(SILENCE, run, sourceFixed), f, sourceFixed)
    ensures var t := Step(s, Turn(f));
      && t.active && t.hold && t.runLang == (if f.lang.Some? then f.lang.value else s.runLang)
      && LastTranslates(t.history) && t.history[|t.history| - 1].final == f
      && t.history[|t.history| - 1].runLang == t.runLang
  {
    RunWanted(Fresh(sourceFixed), 0, SILENCE, run, s);
    SourceFixed(Fresh(sourceFixed), 0, run, s);
  }
}
