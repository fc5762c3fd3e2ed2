/** Who owns a live session and its id, over every interleaving of the handlers. */
module HandlerOwnership {
  import opened Prelude
  import opened StartLocks
  import opened Handlers
  import opened HandlerInvariants

  // ---- Binding and letting go ----------------------------------------------

  /** Whoever else starts a session is the one it sends to. */
  lemma StartersSendTo(w: World, h: nat, y: nat)
    requires Rest(w, h) && y < |w.sessions|
    ensures forall g :: 0 <= g < |w.handlers| && g != h && StartsSession(w.handlers[g], y) ==>
              w.sessions[y].send == To(g)
  {
    forall g | 0 <= g < |w.handlers| && g != h && StartsSession(w.handlers[g], y) ensures w.sessions[y].send == To(g) {
      assert HandlerOk(w, g);
    }
  }

  /** Session s, which handler h has, is bound to h or being rebound by it, and becomes x as h becomes r. */
  ghost predicate CanRebind(w: World, h: nat, s: nat, x: Session, r: Handler) {
    && Rest(w, h) && h < |w.handlers| && s < |w.sessions| && !Starts(w.handlers[h]) && !Starts(r)
    && HandlerOk(w, h) && !w.handlers[h].over && w.handlers[h].session == Some(s)
    && (w.handlers[h].doing.Rebinding? || (!w.sessions[s].closed && w.sessions[s].send == To(h)))
    && x.id == w.sessions[s].id && x.closed == w.sessions[s].closed && x.doomed == w.sessions[s].doomed
    && (!x.closed ==> if r.over then x.send.Buffer? else x.send == To(h) && !x.detached && Owns(r, s))
  }

  function Rebinding(w: World, h: nat, s: nat, x: Session, r: Handler): World
    requires h < |w.handlers| && s < |w.sessions|
  {
    Put(w.(sessions := w.sessions[s := x]), h, r)
  }

  /** No other handler counts on the session: its lock is h's, or its socket is. */
  lemma OthersHold(w: World, h: nat, s: nat, x: Session, r: Handler, g: nat, y: nat)
    requires CanRebind(w, h, s, x, r) && g < |w.handlers| && g != h
    requires HandlerOk(w, g) && w.handlers[g].session == Some(y)
    ensures HoldsOk(Rebinding(w, h, s, x, r), g, y)
  {
    var mine, theirs := w.handlers[h].doing, w.handlers[g].doing;
    assert SessionOk(w, s);
    if y == s && mine.Rebinding? && theirs.Rebinding? { MutualExclusion(w.locks, g, h); }
  }

  lemma OthersStart(w: World, h: nat, s: nat, x: Session, r: Handler, g: nat)
    requires CanRebind(w, h, s, x, r) && g < |w.handlers| && g != h && HandlerOk(w, g) && Starts(w.handlers[g])
    ensures StartOk(Rebinding(w, h, s, x, r), g, w.handlers[g].doing.session)
  {
    assert SessionOk(w, s);
  }

  lemma OthersKeep(w: World, h: nat, s: nat, x: Session, r: Handler, g: nat)
    requires CanRebind(w, h, s, x, r) && g < |w.handlers| && g != h
    ensures HandlerOk(Rebinding(w, h, s, x, r), g)
  {
    var q := w.handlers[g];
    assert HandlerOk(w, g);
    if q.session.Some? { OthersHold(w, h, s, x, r, g, q.session.value); }
    if Starts(q) { OthersStart(w, h, s, x, r, g); }
    if q.doing.ClosingFor? { StartersSendTo(w, h, q.doing.target); }
  }

  /** Session s bound to handler h's socket, or let go of into the buffer, as its one owner does. */
  lemma RebindSendKeeps(w: World, h: nat, s: nat, x: Session, r: Handler)
    requires CanRebind(w, h, s, x, r)
    ensures Rest(Rebinding(w, h, s, x, r), h)
  {
    var t := Rebinding(w, h, s, x, r);
    assert SessionOk(w, s);
    forall id | id in t.active ensures ActiveOk(t, id) { assert ActiveOk(w, id); }
    forall y | 0 <= y < |t.sessions| ensures SessionOk(t, y) {
      assert SessionOk(w, y);
      if y != s && !w.sessions[y].closed { assert w.sessions[y].send != To(h); }
    }
    forall g | 0 <= g < |t.handlers| && g != h ensures HandlerOk(t, g) { OthersKeep(w, h, s, x, r, g); }
    forall y | 0 <= y < |t.sessions| ensures BeingStarted(t, y) ==> BeingStarted(w, y) {
      StartersSendTo(w, h, y);
    }
  }

  lemma ReboundHandler(w: World, h: nat)
    requires Handlers.Inv(w) && Enabled(w, Rebound(h))
    ensures HandlerOk(ReboundStep(w, h), h)
  {
    assert HandlerOk(w, h);
    if h in w.locks.claims { ExitKeeps(w.locks, h); }
  }

  lemma ReboundKeeps(w: World, h: nat)
    requires Handlers.Inv(w) && Enabled(w, Rebound(h))
    ensures Handlers.Inv(ReboundStep(w, h))
  {
    InvRest(w, h);
    var s := w.handlers[h].session.value;
    var x := w.sessions[s].(send := To(h));
    var r := if w.sessions[s].closed then w.handlers[h].(session := None, over := true, doing := Reading)
             else w.handlers[h].(doing := Reading);
    RebindSendKeeps(w, h, s, x, r);
    UnlockKeeps(Rebinding(w, h, s, x, r), h);
    assert ReboundStep(w, h) == Unlock(Rebinding(w, h, s, x, r), h);
    ReboundHandler(w, h);
  }

  /** What the leaving handler does to its session: detaches it if it is still the one bound. */
  lemma LeaveSessions(w: World, h: nat) returns (v: World)
    requires Handlers.Inv(w) && WellFormed(w, h) && !Starts(w.handlers[h])
    ensures Rest(v, h) && v.locks == w.locks && LeaveStep(w, h) == Unlock(v, h)
    ensures v.handlers == w.handlers[h := w.handlers[h].(over := true, doing := Reading)]
    ensures |v.sessions| == |w.sessions|
    ensures w.handlers[h].session.Some? ==>
              var x := v.sessions[w.handlers[h].session.value];
              x.send != To(h) || x.closed
  {
    InvRest(w, h);
    var was := w.handlers[h];
    var r := was.(over := true, doing := Reading);
    if was.session.Some? && !w.sessions[was.session.value].closed &&
      (was.doing.Rebinding? || w.sessions[was.session.value].send == To(h))
    {
      var s := was.session.value;
      var x := w.sessions[s].(send := Buffer, detached := true);
      RebindSendKeeps(w, h, s, x, r);
      v := Put(w.(sessions := w.sessions[s := x]), h, r);
    } else {
      MoveKeeps(w, h, r);
      v := Put(w, h, r);
    }
  }

  /** A start under way is abandoned. */
  lemma LeaveStarting(w: World, h: nat)
    requires Handlers.Inv(w) && WellFormed(w, h) && Starts(w.handlers[h])
    ensures Handlers.Inv(LeaveStep(w, h))
  {
    var s := w.handlers[h].doing.session;
    assert Close(Unlock(w, h), s) == Unlock(Close(w, s), h);
    AbandonedKeeps(w, Unlock(Close(w, s), h), h, true);
  }

  lemma LeftHandler(w: World, h: nat)
    requires h < |w.handlers| && w.handlers[h].over && w.handlers[h].doing.Reading? && h !in w.locks.claims
    requires w.handlers[h].session.Some? ==> w.handlers[h].session.value < |w.sessions|
    ensures HandlerOk(w, h)
  {}

  lemma LeaveKeeps(w: World, h: nat)
    requires Handlers.Inv(w) && WellFormed(w, h)
    ensures Handlers.Inv(LeaveStep(w, h))
  {
    if Starts(w.handlers[h]) {
      LeaveStarting(w, h);
    } else {
      var v := LeaveSessions(w, h);
      UnlockKeeps(v, h);
      LeftHandler(Unlock(v, h), h);
    }
  }

  /** The registration itself, the lock still held. */
  function Registering(w: World, h: nat): World
    requires Enabled(w, Register(h))
  {
    var s := w.handlers[h].doing.session;
    Put(w.(active := w.active[w.sessions[s].id := s]), h, w.handlers[h].(session := Some(s), doing := Reading))
  }

  /** Nobody else counts on the id being free: not another start, nor a holder of its lock. */
  lemma RegisteredIdIsMine(w: World, h: nat, g: nat)
    requires Handlers.Inv(w) && Enabled(w, Register(h)) && g < |w.handlers| && g != h
    ensures g in w.locks.claims && w.locks.claims[g].held ==>
              w.locks.claims[g].id != w.sessions[w.handlers[h].doing.session].id
    ensures Starts(w.handlers[g]) ==>
              w.handlers[g].doing.session < |w.sessions| &&
              w.sessions[w.handlers[g].doing.session].id != w.sessions[w.handlers[h].doing.session].id
  {
    var s := w.handlers[h].doing.session;
    assert HandlerOk(w, h) && HandlerOk(w, g);
    var claims := w.locks.claims;
    if g in claims && h in claims && claims[g].held && claims[g].id == w.sessions[s].id {
      MutualExclusion(w.locks, g, h);
    }
    if Starts(w.handlers[g]) { assert BeingStarted(w, s) && BeingStarted(w, w.handlers[g].doing.session); }
  }

  lemma RegisterHandler(w: World, h: nat, g: nat)
    requires Handlers.Inv(w) && Enabled(w, Register(h)) && g < |w.handlers| && g != h
    ensures HandlerOk(Registering(w, h), g)
  {
    RegisteredIdIsMine(w, h, g);
    assert HandlerOk(w, g) && HandlerOk(w, h);
    var q := w.handlers[g];
    if q.doing.ClosingFor? {
      var target := q.doing.target;
      assert !BeingStarted(w, target);
      assert !BeingStarted(Registering(w, h), target);
    }
  }

  lemma RegisterKeeps(w: World, h: nat)
    requires Handlers.Inv(w) && Enabled(w, Register(h))
    ensures Handlers.Inv(RegisterStep(w, h))
  {
    var s, u := w.handlers[h].doing.session, Registering(w, h);
    assert HandlerOk(w, h);
    forall id | id in u.active ensures ActiveOk(u, id) { assert id in w.active ==> ActiveOk(w, id); }
    forall y | 0 <= y < |u.sessions| ensures SessionOk(u, y) { assert SessionOk(w, y); }
    forall g | 0 <= g < |u.handlers| && g != h ensures HandlerOk(u, g) { RegisterHandler(w, h, g); }
    forall y | 0 <= y < |u.sessions| ensures BeingStarted(u, y) ==> BeingStarted(w, y) {}
    UnlockKeeps(u, h);
    assert RegisterStep(w, h) == Unlock(u, h);
    assert HandlerOk(Unlock(u, h), h);
  }

  // ---- Every run -----------------------------------------------------------

  lemma StepKeeps(w: World, e: Event)
    requires Handlers.Inv(w) && Enabled(w, e) && Clean(w, e)
    ensures Handlers.Inv(Step(w, e))
  {
    match e
    case Connect(user) => ConnectKeeps(w, user);
    case Present(h, id, mint) => PresentKeeps(w, h, id, mint);
    case Locked(h, mint) => LockedKeeps(w, h, mint);
    case OldClosed(h, mint) => OldClosedKeeps(w, h, mint);
    case Rebound(h) => ReboundKeeps(w, h);
    case Checked(h, answer, mint) => CheckedKeeps(w, h, answer, mint);
    case Announce(h) => AnnounceKeeps(w, h);
    case StartFails(h) => AbandonedKeeps(w, Unlock(Close(w, w.handlers[h].doing.session), h), h, false);
    case RecordingGone(h, mint) => RecordingGoneKeeps(w, h, mint);
    case Register(h) => RegisterKeeps(w, h);
    case End(h) => EndKeeps(w, h);
    case Leave(h) => LeaveKeeps(w, h);
    case GraceClose(s) => DoomedNotStarted(w, s); CloseAnyKeeps(w, s);
    case Doom(s) => DoomKeeps(w, s);
    case CloseDoomed(s) => DoomedNotStarted(w, s); CloseAnyKeeps(w, s);
  }

  lemma {:induction false} RunsKeep(w: World, run: seq<Event>, end: World)
    requires Handlers.Inv(w) && IsCleanRun(w, run, end)
    ensures Handlers.Inv(end)
    decreases |run|
  {
    if |run| > 0 {
      StepKeeps(w, run[0]);
      RunsKeep(Step(w, run[0]), run[1..], end);
    }
  }

  // ---- What it gives -------------------------------------------------------

  /** No registration evicts another session: when a start registers its id, nobody has it. */
  lemma RegisterNeverEvicts(run: seq<Event>, w: World, h: nat)
    requires IsCleanRun(IDLE, run, w) && Enabled(w, Register(h))
    ensures w.sessions[w.handlers[h].doing.session].id !in w.active
  {
    RunsKeep(IDLE, run, w);
    assert HandlerOk(w, h);
  }

  /** Session s keeps its entry from w to t, unless t has it closed or doomed to be. */
  ghost predicate Stays(w: World, t: World, s: nat) {
    s < |w.sessions| && Registered(w.active, w.sessions[s].id, s) ==>
      && s < |t.sessions| && t.sessions[s].id == w.sessions[s].id
      && (Registered(t.active, t.sessions[s].id, s) || t.sessions[s].closed || t.sessions[s].doomed)
  }

  lemma StartOnStays(w: World, u: World, h: nat, mint: nat, s: nat)
    requires h < |u.handlers| && (u.handlers[h].session.Some? ==> u.handlers[h].session.value < |u.sessions|)
    requires u.active == w.active && u.sessions == w.sessions
    ensures Stays(w, StartOn(u, h, mint), s)
  {}

  lemma ColdStays(w: World, u: World, h: nat, mint: nat, s: nat)
    requires h < |u.handlers| && (u.handlers[h].session.Some? ==> u.handlers[h].session.value < |u.sessions|)
    requires h in u.locks.claims && u.active == w.active && u.sessions == w.sessions
    ensures Stays(w, Cold(u, h, mint), s)
  {
    if u.locks.claims[h].id in u.active { StartOnStays(w, Unlock(u, h), h, mint, s); }
  }

  lemma TakeoverStays(w: World, u: World, h: nat, x: nat, s: nat)
    requires h < |u.handlers| && x < |u.sessions| && u.active == w.active && u.sessions == w.sessions
    ensures Stays(w, Takeover(u, h, x), s)
  {}

  lemma ResumeStays(w: World, e: Event, s: nat)
    requires Enabled(w, e) && (e.Locked? || e.OldClosed?)
    ensures Stays(w, Step(w, e), s)
  {
    match e
    case Locked(h, mint) =>
      var u := w.(locks := Acquire(w.locks, h));
      ColdStays(w, u, h, mint, s);
      if w.locks.claims[h].id in w.active { TakeoverStays(w, u, h, w.active[w.locks.claims[h].id], s); }
    case OldClosed(h, mint) =>
      if w.handlers[h].doing.ClosingFor? {
        var u := Put(w, h, w.handlers[h].(session := None));
        ColdStays(w, u, h, mint, s);
        TakeoverStays(w, u, h, w.handlers[h].doing.target, s);
      }
  }

  /**
   * A registered session stays registered until the step that closes it, or that dooms it to be
   * closed: no other session's start, end or stale grace close takes its entry.
   */
  lemma StaysRegistered(run: seq<Event>, w: World, e: Event, s: nat)
    requires IsCleanRun(IDLE, run, w) && Enabled(w, e) && Clean(w, e)
    ensures Stays(w, Step(w, e), s)
  {
    match e
    case Locked(_, _) => ResumeStays(w, e, s);
    case OldClosed(_, _) => ResumeStays(w, e, s);
    case Present(h, _, mint) => StartOnStays(w, w, h, mint, s);
    case Checked(h, _, mint) => CheckedStays(w, e, s);
    case Register(h) =>
      RunsKeep(IDLE, run, w);
      RegisterStays(w, h, s);
    case Leave(h) => LeaveStays(w, h, s);
    case _ => CloseStays(w, e, s);
  }

  lemma CloseStays(w: World, e: Event, s: nat)
    requires Enabled(w, e)
    requires !e.Locked? && !e.OldClosed? && !e.Present? && !e.Checked? && !e.Register? && !e.Leave?
    ensures Stays(w, Step(w, e), s)
  {}

  lemma RegisterStays(w: World, h: nat, s: nat)
    requires Handlers.Inv(w) && Enabled(w, Register(h))
    ensures Stays(w, RegisterStep(w, h), s)
  {
    assert HandlerOk(w, h);
  }

  lemma CheckedStays(w: World, e: Event, s: nat)
    requires Enabled(w, e) && e.Checked?
    ensures Stays(w, Step(w, e), s)
  {
    StartOnStays(w, w, e.h, e.mint, s);
    StartOnStays(w, Unlock(w, e.h), e.h, e.mint, s);
  }

  lemma LeaveStays(w: World, h: nat, s: nat)
    requires WellFormed(w, h)
    ensures Stays(w, LeaveStep(w, h), s)
  {}

  /**
   * Each live session has at most one undisplaced handler, whoever else still holds it; its frames
   * go to that handler's socket, or to the buffer while it is being rebound, and only that handler
   * can detach it.
   */
  lemma OneUndisplacedHandler(run: seq<Event>, w: World, s: nat, g: nat, h: nat)
    requires IsCleanRun(IDLE, run, w) && s < |w.sessions| && !w.sessions[s].closed
    requires g < |w.handlers| && !w.handlers[g].over && w.handlers[g].session == Some(s) && !w.handlers[g].displaced
    requires h < |w.handlers| && !w.handlers[h].over && w.handlers[h].session == Some(s) && h != g
    ensures w.handlers[h].displaced && WellFormed(w, g) && WellFormed(w, h)
    ensures w.sessions[s].send == To(g) || (w.handlers[g].doing.Rebinding? && w.sessions[s].send.Buffer?)
    ensures LeaveStep(w, h).sessions[s] == w.sessions[s]
    ensures LeaveStep(w, g).sessions[s].detached
  {
    RunsKeep(IDLE, run, w);
    assert HandlerOk(w, g) && HandlerOk(w, h) && SessionOk(w, s);
    if w.handlers[g].doing.Rebinding? && w.handlers[h].doing.Rebinding? { MutualExclusion(w.locks, g, h); }
  }

  /** Whoever leaves and detaches a session was its one undisplaced handler. */
  lemma OnlyItsOwnerDetaches(run: seq<Event>, w: World, h: nat, s: nat)
    requires IsCleanRun(IDLE, run, w) && WellFormed(w, h) && s < |w.sessions|
    requires !w.sessions[s].detached && LeaveStep(w, h).sessions[s].detached
    ensures w.handlers[h].session == Some(s) && !w.handlers[h].displaced && !w.sessions[s].closed
  {
    RunsKeep(IDLE, run, w);
    assert HandlerOk(w, h) && SessionOk(w, s);
  }

  /** The socket a live session sends to is a running, undisplaced handler's that has it or is starting it. */
  lemma SocketIsOwners(run: seq<Event>, w: World, s: nat)
    requires IsCleanRun(IDLE, run, w) && s < |w.sessions| && !w.sessions[s].closed && w.sessions[s].send.To?
    ensures w.sessions[s].send.h < |w.handlers| && Owns(w.handlers[w.sessions[s].send.h], s)
  {
    RunsKeep(IDLE, run, w);
    assert SessionOk(w, s);
  }

  // ---- The start locks alone -----------------------------------------------

  /** A run with no promise about minted ids. */
  ghost predicate IsRun(w: World, run: seq<Event>, end: World)
    decreases |run|
  {
    if |run| == 0 then end == w else Enabled(w, run[0]) && IsRun(Step(w, run[0]), run[1..], end)
  }

  lemma UnlockLocks(w: World, h: nat)
    requires StartLocks.Inv(w.locks)
    ensures StartLocks.Inv(Unlock(w, h).locks)
  {
    if CanExit(w.locks, h) { ExitKeeps(w.locks, h); }
  }

  lemma LockedLocks(w: World, h: nat, mint: nat)
    requires StartLocks.Inv(w.locks) && Enabled(w, Locked(h, mint))
    ensures StartLocks.Inv(LockedStep(w, h, mint).locks)
  {
    var u := w.(locks := Acquire(w.locks, h));
    AcquireKeeps(w.locks, h);
    UnlockLocks(u, h);
  }

  lemma OldClosedLocks(w: World, h: nat, mint: nat)
    requires StartLocks.Inv(w.locks) && Enabled(w, OldClosed(h, mint))
    ensures StartLocks.Inv(OldClosedStep(w, h, mint).locks)
  {
    UnlockLocks(w, h);
    UnlockLocks(Put(w, h, w.handlers[h].(session := None)), h);
  }

  lemma StepLocks(w: World, e: Event)
    requires StartLocks.Inv(w.locks) && Enabled(w, e)
    ensures StartLocks.Inv(Step(w, e).locks)
  {
    match e
    case Present(h, id, _) => if id.Some? { EnterKeeps(w.locks, h, id.value); }
    case Locked(h, mint) => LockedLocks(w, h, mint);
    case OldClosed(h, mint) => OldClosedLocks(w, h, mint);
    case Rebound(h) => UnlockLocks(w, h);
    case Checked(h, _, _) => UnlockLocks(w, h);
    case StartFails(h) => UnlockLocks(w, h);
    case RecordingGone(h, _) => UnlockLocks(w, h);
    case Register(h) => UnlockLocks(w, h);
    case Leave(h) => UnlockLocks(w, h);
    case _ =>
  }

  lemma {:induction false} RunsKeepLocks(w: World, run: seq<Event>, end: World)
    requires StartLocks.Inv(w.locks) && IsRun(w, run, end)
    ensures StartLocks.Inv(end.locks)
    decreases |run|
  {
    if |run| > 0 {
      StepLocks(w, run[0]);
      RunsKeepLocks(Step(w, run[0]), run[1..], end);
    }
  }

  /** Two handlers past the lock of one id are the same, over every run, whoever presents what. */
  lemma OneStartPerId(run: seq<Event>, w: World, g: nat, h: nat)
    requires IsRun(IDLE, run, w) && g in w.locks.claims && h in w.locks.claims
    requires w.locks.claims[g].held && w.locks.claims[h].held && w.locks.claims[g].id == w.locks.claims[h].id
    ensures g == h
    ensures w.locks.claims[g].id in w.locks.entries
  {
    RunsKeepLocks(IDLE, run, w);
    MutualExclusion(w.locks, g, h);
    EntryIffClaimed(w.locks, w.locks.claims[g].id);
  }
}
