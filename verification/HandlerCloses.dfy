/** When a session is closed, and why no live one is left without anybody to close it. */
module HandlerCloses {
  import opened Prelude
  import opened StartLocks
  import opened Handlers
  import HandlerOwnership
  import HandlerUsers

  // ---- Closing -------------------------------------------------------------

  /** What a handler has when it starts a session of its own or another is closed for that. */
  predicate GivesUp(w: World, h: nat, s: nat) { h < |w.handlers| && w.handlers[h].session == Some(s) }

  predicate IsStarting(w: World, h: nat, s: nat) { h < |w.handlers| && StartsSession(w.handlers[h], s) }

  /** The steps that close session s: its end, its grace, a revoke, a start that fails, or its handler's next start. */
  predicate Closes(w: World, e: Event, s: nat) {
    match e
    case GraceClose(x) => x == s
    case CloseDoomed(x) => x == s
    case End(h) => GivesUp(w, h, s)
    case Present(h, id, _) => id.None? && GivesUp(w, h, s)
    case Checked(h, answer, _) => !answer.Failed? && GivesUp(w, h, s)
    case Locked(h, _) =>
      && GivesUp(w, h, s) && h in w.locks.claims
      && w.locks.claims[h].id in w.active && w.active[w.locks.claims[h].id] != s
    case StartFails(h) => IsStarting(w, h, s)
    case RecordingGone(h, _) => IsStarting(w, h, s)
    case Leave(h) => IsStarting(w, h, s)
    case _ => false
  }

  lemma {:induction false} AnyRun(w: World, run: seq<Event>, end: World)
    requires IsCleanRun(w, run, end)
    ensures HandlerOwnership.IsRun(w, run, end)
    decreases |run|
  {
    if |run| > 0 { AnyRun(Step(w, run[0]), run[1..], end); }
  }

  lemma LockedCloses(w: World, e: Event, s: nat)
    requires Handlers.Inv(w) && HandlerUsers.Owned(w) && Enabled(w, e) && e.Locked?
    requires s < |w.sessions| && !w.sessions[s].closed
    ensures s < |Step(w, e).sessions|
    ensures Step(w, e).sessions[s].closed <==> Closes(w, e, s)
  {
    var id := w.locks.claims[e.h].id;
    assert HandlerUsers.RecordOwned(w.sessions, w.handlers[e.h]);
    if id in w.active { assert ActiveOk(w, id); }
  }

  predicate GoesOn(e: Event) { e.Present? || e.Checked? || e.RecordingGone? }

  lemma StartsClose(w: World, e: Event, s: nat)
    requires Enabled(w, e) && GoesOn(e) && s < |w.sessions| && !w.sessions[s].closed
    ensures s < |Step(w, e).sessions|
    ensures Step(w, e).sessions[s].closed <==> Closes(w, e, s)
  {}

  lemma OldClosedCloses(w: World, e: Event, s: nat)
    requires Enabled(w, e) && e.OldClosed? && s < |w.sessions| && !w.sessions[s].closed
    ensures s < |Step(w, e).sessions| && !Step(w, e).sessions[s].closed
  {}

  lemma OthersClose(w: World, e: Event, s: nat)
    requires Enabled(w, e) && !e.Locked? && !e.OldClosed? && !GoesOn(e)
    requires s < |w.sessions| && !w.sessions[s].closed
    ensures s < |Step(w, e).sessions|
    ensures Step(w, e).sessions[s].closed <==> Closes(w, e, s)
  {}

  lemma StepCloses(w: World, e: Event, s: nat)
    requires Handlers.Inv(w) && HandlerUsers.Owned(w) && Enabled(w, e) && s < |w.sessions| && !w.sessions[s].closed
    ensures s < |Step(w, e).sessions|
    ensures Step(w, e).sessions[s].closed <==> Closes(w, e, s)
  {
    if e.Locked? {
      LockedCloses(w, e, s);
    } else if e.OldClosed? {
      OldClosedCloses(w, e, s);
    } else if GoesOn(e) {
      StartsClose(w, e, s);
    } else {
      OthersClose(w, e, s);
    }
  }

  /** Over every clean run, a live session is closed by exactly these steps, and no other. */
  lemma ClosesIff(run: seq<Event>, w: World, e: Event, s: nat)
    requires IsCleanRun(IDLE, run, w) && Enabled(w, e) && Clean(w, e) && s < |w.sessions| && !w.sessions[s].closed
    ensures s < |Step(w, e).sessions|
    ensures Step(w, e).sessions[s].closed <==> Closes(w, e, s)
    ensures Closes(w, e, s) ==> !Registered(Step(w, e).active, w.sessions[s].id, s)
  {
    HandlerOwnership.RunsKeep(IDLE, run, w);
    HandlerOwnership.StepKeeps(w, e);
    AnyRun(IDLE, run, w);
    HandlerUsers.RunsOwned(IDLE, run, w);
    StepCloses(w, e, s);
    var id := w.sessions[s].id;
    if id in Step(w, e).active { assert ActiveOk(Step(w, e), id); }
  }

  // ---- Being held ----------------------------------------------------------

  predicate Rebinds(w: World, h: nat, s: nat) {
    h < |w.handlers| && !w.handlers[h].over && w.handlers[h].doing.Rebinding? && w.handlers[h].session == Some(s)
  }

  /** Bound to no socket, with no grace running. */
  predicate Adrift(w: World, s: nat) {
    s < |w.sessions| && !w.sessions[s].closed && w.sessions[s].send.Buffer? && !w.sessions[s].detached
  }

  ghost predicate AllHeld(w: World) {
    forall s :: Adrift(w, s) ==> exists h: nat :: Rebinds(w, h, s)
  }

  ghost function Rebinder(w: World, s: nat): (h: nat)
    requires AllHeld(w) && Adrift(w, s)
    ensures Rebinds(w, h, s)
  {
    var h: nat :| Rebinds(w, h, s);
    h
  }

  lemma LockedHolds(w: World, e: Event, s: nat, g: nat)
    requires Enabled(w, e) && e.Locked? && Rebinds(w, g, s)
    ensures Rebinds(Step(w, e), g, s)
  {}

  /** A cold start takes no session off its socket. */
  lemma ColdAdrift(u: World, h: nat, mint: nat, s: nat)
    requires h < |u.handlers| && h in u.locks.claims
    requires u.handlers[h].session.Some? ==> u.handlers[h].session.value < |u.sessions|
    requires Adrift(Cold(u, h, mint), s)
    ensures Adrift(u, s)
  {}

  lemma LockedHeld(w: World, e: Event, s: nat)
    requires Enabled(w, e) && e.Locked? && Adrift(Step(w, e), s) && !Adrift(w, s)
    ensures Rebinds(Step(w, e), e.h, s)
  {
    var u := w.(locks := Acquire(w.locks, e.h));
    if Step(w, e) == Cold(u, e.h, e.mint) { ColdAdrift(u, e.h, e.mint, s); }
  }

  lemma OldClosedHolds(w: World, e: Event, s: nat, g: nat)
    requires Enabled(w, e) && e.OldClosed? && Rebinds(w, g, s)
    ensures Rebinds(Step(w, e), g, s)
  {}

  lemma OldClosedHeld(w: World, e: Event, s: nat)
    requires Enabled(w, e) && e.OldClosed? && Adrift(Step(w, e), s) && !Adrift(w, s)
    ensures Rebinds(Step(w, e), e.h, s)
  {}

  lemma StartOnHeld(w: World, h: nat, mint: nat, s: nat, g: nat)
    requires h < |w.handlers| && (w.handlers[h].session.Some? ==> w.handlers[h].session.value < |w.sessions|)
    requires Adrift(StartOn(w, h, mint), s) && (Adrift(w, s) ==> Rebinds(w, g, s) && g != h)
    ensures Adrift(w, s) && Rebinds(StartOn(w, h, mint), g, s)
  {}

  lemma StartsHeld(w: World, e: Event, s: nat, g: nat)
    requires Enabled(w, e) && GoesOn(e) && Adrift(Step(w, e), s)
    requires Adrift(w, s) ==> Rebinds(w, g, s)
    ensures Adrift(w, s) && Rebinds(Step(w, e), g, s)
  {
    if e.Present? && e.id.None? { StartOnHeld(w, e.h, e.mint, s, g); }
    if e.Checked? && !e.answer.Failed? {
      StartOnHeld(if e.answer.Honored? then w else Unlock(w, e.h), e.h, e.mint, s, g);
    }
  }

  /** The rebinding handler's own next step ends it with the session bound or its grace begun. */
  lemma LetsGoHeld(w: World, e: Event, s: nat, g: nat)
    requires Enabled(w, e) && (e.Rebound? || e.Leave?) && Adrift(Step(w, e), s)
    requires Adrift(w, s) ==> Rebinds(w, g, s)
    ensures Adrift(w, s) && Rebinds(Step(w, e), g, s)
  {}

  lemma OthersHeld(w: World, e: Event, s: nat, g: nat)
    requires Enabled(w, e) && !e.Locked? && !e.OldClosed? && !GoesOn(e) && Adrift(Step(w, e), s)
    requires Adrift(w, s) ==> Rebinds(w, g, s)
    ensures Adrift(w, s) && Rebinds(Step(w, e), g, s)
  {
    if e.Rebound? || e.Leave? { LetsGoHeld(w, e, s, g); }
  }

  /** A rebinding under way goes on. */
  lemma StillHeld(w: World, e: Event, s: nat, g: nat)
    requires Enabled(w, e) && Adrift(w, s) && Rebinds(w, g, s) && Adrift(Step(w, e), s)
    ensures Rebinds(Step(w, e), g, s)
  {
    if e.Locked? {
      LockedHolds(w, e, s, g);
    } else if e.OldClosed? {
      OldClosedHolds(w, e, s, g);
    } else if GoesOn(e) {
      StartsHeld(w, e, s, g);
    } else {
      OthersHeld(w, e, s, g);
    }
  }

  /** A session taken off its socket is being rebound. */
  lemma NewlyHeld(w: World, e: Event, s: nat)
    requires Enabled(w, e) && !Adrift(w, s) && Adrift(Step(w, e), s)
    ensures e.Locked? || e.OldClosed?
    ensures Rebinds(Step(w, e), e.h, s)
  {
    if e.Locked? {
      LockedHeld(w, e, s);
    } else if e.OldClosed? {
      OldClosedHeld(w, e, s);
    } else if GoesOn(e) {
      StartsHeld(w, e, s, 0);
    } else {
      OthersHeld(w, e, s, 0);
    }
  }

  lemma StepHeld(w: World, e: Event)
    requires AllHeld(w) && Enabled(w, e)
    ensures AllHeld(Step(w, e))
  {
    forall s | Adrift(Step(w, e), s) ensures exists h: nat :: Rebinds(Step(w, e), h, s) {
      if Adrift(w, s) { StillHeld(w, e, s, Rebinder(w, s)); } else { NewlyHeld(w, e, s); }
    }
  }

  lemma {:induction false} RunsHeld(w: World, run: seq<Event>, end: World)
    requires AllHeld(w) && HandlerOwnership.IsRun(w, run, end)
    ensures AllHeld(end)
    decreases |run|
  {
    if |run| > 0 {
      StepHeld(w, run[0]);
      RunsHeld(Step(w, run[0]), run[1..], end);
    }
  }

  /**
   * No live session is left to itself: its frames go to the socket of a running handler that has it,
   * or its grace runs, or exactly one running handler, displaced by nobody, is rebinding it.
   */
  lemma NeverAbandoned(run: seq<Event>, w: World, s: nat)
    requires IsCleanRun(IDLE, run, w) && s < |w.sessions| && !w.sessions[s].closed
    ensures || (w.sessions[s].send.To? && w.sessions[s].send.h < |w.handlers|
                && Owns(w.handlers[w.sessions[s].send.h], s))
            || w.sessions[s].detached
            || exists h: nat :: Rebinds(w, h, s) && !w.handlers[h].displaced
    ensures forall g, h :: Rebinds(w, g, s) && Rebinds(w, h, s) ==> g == h
  {
    HandlerOwnership.RunsKeep(IDLE, run, w);
    AnyRun(IDLE, run, w);
    RunsHeld(IDLE, run, w);
    assert SessionOk(w, s);
    if Adrift(w, s) {
      var h := Rebinder(w, s);
      assert HandlerOk(w, h);
    }
    forall g, h | Rebinds(w, g, s) && Rebinds(w, h, s) ensures g == h {
      assert HandlerOk(w, g) && HandlerOk(w, h);
      MutualExclusion(w.locks, g, h);
    }
  }
}
