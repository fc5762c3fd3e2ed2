/** Sessions stay with the user who started them, over every interleaving of the handlers. */
module HandlerUsers {
  import opened Prelude
  import opened StartLocks
  import opened Handlers
  import HandlerOwnership

  // ---- What every run keeps ------------------------------------------------

  ghost predicate Its(sessions: seq<Session>, r: Handler, s: nat) {
    s < |sessions| && sessions[s].user == r.user
  }

  /** Every session a handler has, starts, or is about to resume is its user's. */
  ghost predicate RecordOwned(sessions: seq<Session>, r: Handler) {
    && (r.session.Some? ==> Its(sessions, r, r.session.value))
    && (r.doing.ClosingFor? ==> Its(sessions, r, r.doing.target))
    && (r.doing.Starting? || r.doing.Announcing? ==> Its(sessions, r, r.doing.session))
  }

  /** Frames go to a socket of the session's user. */
  ghost predicate BoundOwned(handlers: seq<Handler>, s: Session) {
    s.send.To? ==> s.send.h < |handlers| && handlers[s.send.h].user == s.user
  }

  ghost predicate Owned(w: World) {
    && (forall h :: 0 <= h < |w.handlers| ==> RecordOwned(w.sessions, w.handlers[h]))
    && (forall s :: 0 <= s < |w.sessions| ==> BoundOwned(w.handlers, w.sessions[s]))
  }

  /** Other users' handlers and sessions are as they were, and nobody and nothing changes users. */
  ghost predicate Isolated(w: World, t: World, user: User) {
    && |w.handlers| <= |t.handlers| && |w.sessions| <= |t.sessions|
    && (forall g :: 0 <= g < |w.handlers| ==> HandlerKept(w.handlers[g], t.handlers[g], user))
    && (forall s :: 0 <= s < |w.sessions| ==> SessionKept(w.sessions[s], t.sessions[s], user))
  }

  predicate HandlerKept(r: Handler, q: Handler, user: User) { q.user == r.user && (r.user != user ==> q == r) }

  predicate SessionKept(s: Session, x: Session, user: User) {
    x.user == s.user && x.id == s.id && (s.user != user ==> x == s)
  }

  /** A step on behalf of `user`: it keeps the others out, and everyone's sessions their own. */
  ghost predicate Fair(w: World, t: World, user: User) { Isolated(w, t, user) && Owned(t) }

  lemma Compose(w: World, u: World, t: World, user: User)
    requires Isolated(w, u, user) && Isolated(u, t, user)
    ensures Isolated(w, t, user)
  {
    forall g | 0 <= g < |w.handlers| ensures HandlerKept(w.handlers[g], t.handlers[g], user) {
      assert HandlerKept(w.handlers[g], u.handlers[g], user) && HandlerKept(u.handlers[g], t.handlers[g], user);
    }
    forall s | 0 <= s < |w.sessions| ensures SessionKept(w.sessions[s], t.sessions[s], user) {
      assert SessionKept(w.sessions[s], u.sessions[s], user) && SessionKept(u.sessions[s], t.sessions[s], user);
    }
  }

  // ---- Pieces of steps -----------------------------------------------------

  lemma RecordStays(a: seq<Session>, b: seq<Session>, r: Handler)
    requires RecordOwned(a, r) && |a| <= |b| && forall s :: 0 <= s < |a| ==> b[s].user == a[s].user
    ensures RecordOwned(b, r)
  {}

  /** One session changes, into one still bound within its user, and one handler, still its user's. */
  lemma PieceFair(w: World, t: World, h: nat, s: nat, x: Session, r: Handler)
    requires Owned(w) && h < |w.handlers| && s < |w.sessions| && w.sessions[s].user == w.handlers[h].user
    requires t == w.(locks := t.locks, active := t.active,
                     sessions := w.sessions[s := x], handlers := w.handlers[h := r])
    requires x.user == w.sessions[s].user && x.id == w.sessions[s].id && BoundOwned(w.handlers, x)
    requires r.user == w.handlers[h].user && RecordOwned(w.sessions, r)
    ensures Fair(w, t, w.handlers[h].user)
  {
    forall g | 0 <= g < |t.handlers| ensures RecordOwned(t.sessions, t.handlers[g]) {
      RecordStays(w.sessions, t.sessions, if g == h then r else w.handlers[g]);
    }
    forall y | 0 <= y < |t.sessions| ensures BoundOwned(t.handlers, t.sessions[y]) {
      assert BoundOwned(w.handlers, w.sessions[y]);
    }
  }

  /** Only handler h's own record changes. */
  lemma PutFair(w: World, t: World, h: nat, r: Handler)
    requires Owned(w) && h < |w.handlers|
    requires t == w.(locks := t.locks, active := t.active, handlers := w.handlers[h := r])
    requires r.user == w.handlers[h].user && RecordOwned(w.sessions, r)
    ensures Fair(w, t, w.handlers[h].user)
  {
    forall g | 0 <= g < |t.handlers| ensures RecordOwned(t.sessions, t.handlers[g]) {
      assert g != h ==> RecordOwned(w.sessions, w.handlers[g]);
    }
    forall y | 0 <= y < |t.sessions| ensures BoundOwned(t.handlers, t.sessions[y]) {
      assert BoundOwned(w.handlers, w.sessions[y]);
    }
  }

  lemma OpenFair(w: World, h: nat, mint: nat)
    requires Owned(w) && h < |w.handlers|
    ensures Fair(w, Open(w, h, mint), w.handlers[h].user)
  {
    var t := Open(w, h, mint);
    assert RecordOwned(w.sessions, w.handlers[h]);
    forall g | 0 <= g < |t.handlers| ensures RecordOwned(t.sessions, t.handlers[g]) {
      RecordStays(w.sessions, t.sessions, w.handlers[g]);
    }
    forall y | 0 <= y < |t.sessions| ensures BoundOwned(t.handlers, t.sessions[y]) {
      if y < |w.sessions| { assert BoundOwned(w.handlers, w.sessions[y]); }
    }
  }

  lemma StartOnFair(w: World, h: nat, mint: nat)
    requires Owned(w) && h < |w.handlers|
    requires w.handlers[h].session.Some? ==> w.handlers[h].session.value < |w.sessions|
    ensures Fair(w, StartOn(w, h, mint), w.handlers[h].user)
  {
    assert RecordOwned(w.sessions, w.handlers[h]);
    if w.handlers[h].session.Some? {
      var s := w.handlers[h].session.value;
      assert BoundOwned(w.handlers, w.sessions[s]);
      PieceFair(w, StartOn(w, h, mint), h, s, w.sessions[s].(closed := true), w.handlers[h].(doing := ClosingOld));
    } else {
      OpenFair(w, h, mint);
    }
  }

  lemma LocksFair(w: World, t: World, user: User)
    requires Owned(w) && t == w.(locks := t.locks, active := t.active)
    ensures Fair(w, t, user)
  {}

  lemma ColdFair(w: World, h: nat, mint: nat)
    requires Owned(w) && h < |w.handlers| && h in w.locks.claims
    requires w.handlers[h].session.Some? ==> w.handlers[h].session.value < |w.sessions|
    ensures Fair(w, Cold(w, h, mint), w.handlers[h].user)
  {
    var user := w.handlers[h].user;
    assert RecordOwned(w.sessions, w.handlers[h]);
    if w.locks.claims[h].id in w.active {
      LocksFair(w, Unlock(w, h), user);
      StartOnFair(Unlock(w, h), h, mint);
      Compose(w, Unlock(w, h), Cold(w, h, mint), user);
    } else {
      PutFair(w, Cold(w, h, mint), h, w.handlers[h].(doing := Checking));
    }
  }

  /** The socket a session is taken from is its user's too. */
  lemma TakeoverFair(w: World, h: nat, s: nat)
    requires Owned(w) && h < |w.handlers| && Its(w.sessions, w.handlers[h], s)
    ensures Fair(w, Takeover(w, h, s), w.handlers[h].user)
  {
    var before, user := w.sessions[s].send, w.handlers[h].user;
    var r := w.handlers[h].(session := Some(s), doing := Rebinding);
    assert BoundOwned(w.handlers, w.sessions[s]);
    var u := w.(sessions := w.sessions[s := w.sessions[s].(send := Buffer, detached := false)],
                handlers := w.handlers[h := r]);
    PieceFair(w, u, h, s, u.sessions[s], r);
    if before.To? && before.h != h && !w.handlers[before.h].over {
      var q := w.handlers[before.h].(displaced := true);
      assert RecordOwned(u.sessions, u.handlers[before.h]);
      PutFair(u, Put(u, before.h, q), before.h, q);
      Compose(w, u, Put(u, before.h, q), user);
      assert Takeover(w, h, s).handlers == Put(u, before.h, q).handlers;
    }
  }

  // ---- Each step -----------------------------------------------------------

  lemma LockedFair(w: World, h: nat, mint: nat)
    requires Owned(w) && Enabled(w, Locked(h, mint))
    ensures Fair(w, LockedStep(w, h, mint), w.handlers[h].user)
  {
    var u, user := w.(locks := Acquire(w.locks, h)), w.handlers[h].user;
    var id, session := w.locks.claims[h].id, w.handlers[h].session;
    LocksFair(w, u, user);
    assert RecordOwned(w.sessions, w.handlers[h]);
    if id in w.active && SameUser(w.sessions[w.active[id]], w.handlers[h]) {
      var x := w.active[id];
      if session.Some? && session.value != x {
        var s := session.value;
        assert BoundOwned(w.handlers, w.sessions[s]);
        var r := w.handlers[h].(doing := ClosingFor(x));
        PieceFair(u, LockedStep(w, h, mint), h, s, w.sessions[s].(closed := true), r);
      } else if !w.sessions[x].closed {
        TakeoverFair(u, h, x);
      } else {
        ColdFair(u, h, mint);
      }
    } else {
      ColdFair(u, h, mint);
    }
    Compose(w, u, LockedStep(w, h, mint), user);
  }

  lemma OldClosedFair(w: World, h: nat, mint: nat)
    requires Owned(w) && Enabled(w, OldClosed(h, mint))
    ensures Fair(w, OldClosedStep(w, h, mint), w.handlers[h].user)
  {
    assert RecordOwned(w.sessions, w.handlers[h]);
    if w.handlers[h].doing.ClosingFor? {
      var u := Put(w, h, w.handlers[h].(session := None));
      PutFair(w, u, h, u.handlers[h]);
      if !w.sessions[w.handlers[h].doing.target].closed {
        TakeoverFair(u, h, w.handlers[h].doing.target);
      } else {
        ColdFair(u, h, mint);
      }
      Compose(w, u, OldClosedStep(w, h, mint), w.handlers[h].user);
    } else {
      OpenFair(w, h, mint);
    }
  }

  lemma ReboundFair(w: World, h: nat)
    requires Owned(w) && Enabled(w, Rebound(h))
    ensures Fair(w, ReboundStep(w, h), w.handlers[h].user)
  {
    var s, t := w.handlers[h].session.value, ReboundStep(w, h);
    assert RecordOwned(w.sessions, w.handlers[h]);
    PieceFair(w, t, h, s, w.sessions[s].(send := To(h)), t.handlers[h]);
  }

  lemma CheckedFair(w: World, h: nat, answer: Answer, mint: nat)
    requires Owned(w) && Enabled(w, Checked(h, answer, mint))
    ensures Fair(w, CheckedStep(w, h, answer, mint), w.handlers[h].user)
  {
    var u, user := Unlock(w, h), w.handlers[h].user;
    assert RecordOwned(w.sessions, w.handlers[h]);
    LocksFair(w, u, user);
    match answer
    case Failed => PutFair(w, CheckedStep(w, h, answer, mint), h, w.handlers[h].(doing := Reading));
    case Honored => StartOnFair(w, h, mint);
    case Refused =>
      StartOnFair(u, h, mint);
      Compose(w, u, CheckedStep(w, h, answer, mint), user);
  }

  lemma LeaveFair(w: World, h: nat)
    requires Owned(w) && WellFormed(w, h)
    ensures Fair(w, LeaveStep(w, h), w.handlers[h].user)
  {
    var r, t := w.handlers[h], LeaveStep(w, h);
    assert RecordOwned(w.sessions, r);
    if r.doing.Starting? || r.doing.Announcing? {
      var s := r.doing.session;
      assert BoundOwned(w.handlers, w.sessions[s]);
      PieceFair(w, t, h, s, w.sessions[s].(closed := true), t.handlers[h]);
    } else if r.session.Some? {
      var s := r.session.value;
      assert BoundOwned(w.handlers, w.sessions[s]);
      PieceFair(w, t, h, s, t.sessions[s], t.handlers[h]);
    } else {
      PutFair(w, t, h, t.handlers[h]);
    }
  }

  /** A start given up or over: its session is closed or registered. */
  lemma StartedFair(w: World, e: Event)
    requires Owned(w) && Enabled(w, e) && (e.Announce? || e.StartFails? || e.Register?)
    ensures Fair(w, Step(w, e), w.handlers[e.h].user)
  {
    var r, t := w.handlers[e.h], Step(w, e);
    var s := r.doing.session;
    assert RecordOwned(w.sessions, r) && BoundOwned(w.handlers, w.sessions[s]);
    if e.StartFails? {
      PieceFair(w, t, e.h, s, w.sessions[s].(closed := true), t.handlers[e.h]);
    } else {
      PutFair(w, t, e.h, t.handlers[e.h]);
    }
  }

  lemma GoneFair(w: World, h: nat, mint: nat)
    requires Owned(w) && Enabled(w, RecordingGone(h, mint))
    ensures Fair(w, Step(w, RecordingGone(h, mint)), w.handlers[h].user)
  {
    var s := w.handlers[h].doing.session;
    assert RecordOwned(w.sessions, w.handlers[h]) && BoundOwned(w.handlers, w.sessions[s]);
    var u := Unlock(Close(w, s), h);
    PieceFair(w, u, h, s, w.sessions[s].(closed := true), w.handlers[h]);
    OpenFair(u, h, mint);
    Compose(w, u, Open(u, h, mint), w.handlers[h].user);
  }

  lemma EndFair(w: World, h: nat)
    requires Owned(w) && Enabled(w, End(h))
    ensures Fair(w, Step(w, End(h)), w.handlers[h].user)
  {
    var s, t := w.handlers[h].session.value, Step(w, End(h));
    assert RecordOwned(w.sessions, w.handlers[h]) && BoundOwned(w.handlers, w.sessions[s]);
    PieceFair(w, t, h, s, w.sessions[s].(closed := true), t.handlers[h]);
  }

  /** The events a handler's own code brings about. */
  predicate Acts(e: Event) { !e.Connect? && !e.GraceClose? && !e.Doom? && !e.CloseDoomed? }

  lemma ActFair(w: World, e: Event)
    requires Owned(w) && Enabled(w, e) && Acts(e)
    ensures Fair(w, Step(w, e), w.handlers[e.h].user)
  {
    match e
    case Present(h, id, mint) =>
      if id.None? { StartOnFair(w, h, mint); } else { PresentFair(w, e); }
    case Locked(h, mint) => LockedFair(w, h, mint);
    case OldClosed(h, mint) => OldClosedFair(w, h, mint);
    case Rebound(h) => ReboundFair(w, h);
    case Checked(h, answer, mint) => CheckedFair(w, h, answer, mint);
    case RecordingGone(h, mint) => GoneFair(w, h, mint);
    case End(h) => EndFair(w, h);
    case Leave(h) => LeaveFair(w, h);
    case _ => StartedFair(w, e);
  }

  lemma PresentFair(w: World, e: Event)
    requires Owned(w) && Enabled(w, e) && e.Present? && e.id.Some?
    ensures Fair(w, Step(w, e), w.handlers[e.h].user)
  {
    var t := Step(w, e);
    assert RecordOwned(w.sessions, w.handlers[e.h]);
    PutFair(w, t, e.h, t.handlers[e.h]);
  }

  lemma ConnectOwned(w: World, user: User)
    requires Owned(w)
    ensures Owned(Step(w, Connect(user)))
  {
    var t := Step(w, Connect(user));
    forall g | 0 <= g < |t.handlers| ensures RecordOwned(t.sessions, t.handlers[g]) {
      if g < |w.handlers| { assert RecordOwned(w.sessions, w.handlers[g]); }
    }
    forall y | 0 <= y < |t.sessions| ensures BoundOwned(t.handlers, t.sessions[y]) {
      assert BoundOwned(w.handlers, w.sessions[y]);
    }
  }

  lemma SessionEventOwned(w: World, e: Event)
    requires Owned(w) && Enabled(w, e) && (e.GraceClose? || e.Doom? || e.CloseDoomed?)
    ensures Owned(Step(w, e))
  {
    var t := Step(w, e);
    forall g | 0 <= g < |t.handlers| ensures RecordOwned(t.sessions, t.handlers[g]) {
      RecordStays(w.sessions, t.sessions, w.handlers[g]);
    }
    forall y | 0 <= y < |t.sessions| ensures BoundOwned(t.handlers, t.sessions[y]) {
      assert BoundOwned(w.handlers, w.sessions[y]);
    }
  }

  lemma {:induction false} RunsOwned(w: World, run: seq<Event>, end: World)
    requires Owned(w) && HandlerOwnership.IsRun(w, run, end)
    ensures Owned(end)
    decreases |run|
  {
    if |run| > 0 {
      var e := run[0];
      if Acts(e) { ActFair(w, e); } else if e.Connect? { ConnectOwned(w, e.user); } else { SessionEventOwned(w, e); }
      RunsOwned(Step(w, e), run[1..], end);
    }
  }

  // ---- What it gives -------------------------------------------------------

  /**
   * Over every run, whoever presents which id: the session a handler has, is starting, or closes its
   * old one for, was started by the same member of the same household, and a session's frames only
   * ever go to a socket of that user.
   */
  lemma SessionsStayWithTheirUser(run: seq<Event>, w: World, h: nat)
    requires HandlerOwnership.IsRun(IDLE, run, w) && h < |w.handlers|
    ensures RecordOwned(w.sessions, w.handlers[h])
    ensures forall s :: 0 <= s < |w.sessions| && w.sessions[s].send == To(h) ==>
              w.sessions[s].user == w.handlers[h].user
  {
    RunsOwned(IDLE, run, w);
    forall s | 0 <= s < |w.sessions| && w.sessions[s].send == To(h)
      ensures w.sessions[s].user == w.handlers[h].user
    {
      assert BoundOwned(w.handlers, w.sessions[s]);
    }
  }

  /**
   * Over every run, nothing a handler does, its starts and takeovers included, changes a handler or a
   * session of another user.
   */
  lemma OthersUntouched(run: seq<Event>, w: World, e: Event)
    requires HandlerOwnership.IsRun(IDLE, run, w) && Enabled(w, e) && Acts(e)
    ensures e.h < |w.handlers|
    ensures Isolated(w, Step(w, e), w.handlers[e.h].user)
  {
    RunsOwned(IDLE, run, w);
    ActFair(w, e);
  }

  /** A start from handler h got the lock of an id that is live under another user's session x. */
  ghost predicate ForeignId(w: World, h: nat, mint: nat, x: nat) {
    && Enabled(w, Locked(h, mint)) && x < |w.sessions|
    && Registered(w.active, w.locks.claims[h].id, x) && w.sessions[x].user != w.handlers[h].user
  }

  lemma Unlocked(w: World, h: nat)
    requires StartLocks.Inv(w.locks)
    ensures h !in Unlock(w, h).locks.claims
  {
    if h in w.locks.claims { ClaimantCanExit(w.locks, h); }
  }

  /** Nothing but handler h and its old session has changed. */
  ghost predicate OnlyItsOwn(w: World, t: World, h: nat) {
    && |t.handlers| == |w.handlers| && |w.sessions| <= |t.sessions| && h < |w.handlers|
    && (forall g :: 0 <= g < |w.handlers| && g != h ==> t.handlers[g] == w.handlers[g])
    && (forall s :: 0 <= s < |w.sessions| && w.handlers[h].session != Some(s) ==> t.sessions[s] == w.sessions[s])
  }

  /** Handler h goes on with a start under `mint`, once its old session has closed. */
  ghost predicate StartsUnder(w: World, t: World, h: nat, mint: nat) {
    && h < |w.handlers| && h < |t.handlers| && h !in t.locks.claims
    && if w.handlers[h].session.Some? then t.handlers[h].doing == ClosingOld
       else t.handlers[h].doing == Starting(|w.sessions|)
            && |t.sessions| == |w.sessions| + 1 && t.sessions[|w.sessions|].id == mint
  }

  lemma ForeignStarts(w: World, u: World, h: nat, mint: nat, x: nat)
    requires Owned(w) && h < |w.handlers| && x < |w.sessions| && w.sessions[x].user != w.handlers[h].user
    requires u == w.(locks := u.locks) && h !in u.locks.claims
    requires w.handlers[h].session.Some? ==> w.handlers[h].session.value < |w.sessions|
    ensures OnlyItsOwn(w, StartOn(u, h, mint), h) && StartsUnder(w, StartOn(u, h, mint), h, mint)
    ensures StartOn(u, h, mint).sessions[x] == w.sessions[x]
    ensures forall id :: Registered(w.active, id, x) ==> Registered(StartOn(u, h, mint).active, id, x)
  {
    assert RecordOwned(w.sessions, w.handlers[h]);
  }

  lemma ForeignIsCold(w: World, h: nat, mint: nat, x: nat) returns (u: World)
    requires StartLocks.Inv(w.locks) && ForeignId(w, h, mint, x)
    ensures u == w.(locks := u.locks) && h !in u.locks.claims && h < |u.handlers|
    ensures u.handlers[h].session.Some? ==> u.handlers[h].session.value < |u.sessions|
    ensures Step(w, Locked(h, mint)) == StartOn(u, h, mint)
  {
    var v := w.(locks := Acquire(w.locks, h));
    AcquireKeeps(w.locks, h);
    Unlocked(v, h);
    u := Unlock(v, h);
    assert LockedStep(w, h, mint) == Cold(v, h, mint);
  }

  /**
   * A start that presents an id live under another user's session changes no handler but its own and
   * no session but its own old one, leaves the id with its session, lets its lock go, and goes on
   * under an id the server makes.
   */
  lemma ForeignStart(run: seq<Event>, w: World, h: nat, mint: nat, x: nat)
    requires HandlerOwnership.IsRun(IDLE, run, w) && ForeignId(w, h, mint, x)
    ensures var t := Step(w, Locked(h, mint));
      && OnlyItsOwn(w, t, h) && StartsUnder(w, t, h, mint)
      && t.sessions[x] == w.sessions[x] && Registered(t.active, w.locks.claims[h].id, x)
  {
    RunsOwned(IDLE, run, w);
    HandlerOwnership.RunsKeepLocks(IDLE, run, w);
    var u := ForeignIsCold(w, h, mint, x);
    ForeignStarts(w, u, h, mint, x);
  }

  /** The id is live under session x, which this handler's user started. */
  predicate Resumable(w: World, h: nat, id: nat, x: nat) {
    h < |w.handlers| && x < |w.sessions| && Registered(w.active, id, x) && w.sessions[x].user == w.handlers[h].user
  }

  predicate TakenOver(w: World, t: World, h: nat, x: nat)
    requires x < |w.sessions|
  {
    && h < |t.handlers| && t.handlers[h].session == Some(x)
    && x < |t.sessions| && t.sessions[x].send.Buffer? && !t.sessions[x].detached && !t.sessions[x].closed
    && (var from := w.sessions[x].send;
        from.To? && from.h != h && from.h < |t.handlers| && !t.handlers[from.h].over ==> t.handlers[from.h].displaced)
  }

  /**
   * A start whose id is live under the same user's session x is a warm resume exactly when x is open
   * and the handler has no other: then it has x, which is held back in the buffer, and the socket x
   * sent to is displaced. With another session of its own, that one is closed first.
   */
  lemma WarmResumeIff(run: seq<Event>, w: World, h: nat, mint: nat, x: nat)
    requires HandlerOwnership.IsRun(IDLE, run, w) && Enabled(w, Locked(h, mint))
    requires Resumable(w, h, w.locks.claims[h].id, x)
    ensures var t, own := Step(w, Locked(h, mint)), w.handlers[h].session;
      && h < |t.handlers|
      && (t.handlers[h].doing.Rebinding? <==> !w.sessions[x].closed && (own.None? || own == Some(x)))
      && (t.handlers[h].doing.Rebinding? ==> TakenOver(w, t, h, x))
      && (t.handlers[h].doing.ClosingFor? <==> own.Some? && own != Some(x))
      && (t.handlers[h].doing.ClosingFor? ==>
            t.handlers[h].doing.target == x && own.value < |t.sessions| && t.sessions[own.value].closed)
  {}

  /** With no such session, a start resumes none; only an id that is not live at all has its owner looked up. */
  lemma ColdOtherwise(run: seq<Event>, w: World, h: nat, mint: nat)
    requires HandlerOwnership.IsRun(IDLE, run, w) && Enabled(w, Locked(h, mint))
    requires forall x: nat :: !Resumable(w, h, w.locks.claims[h].id, x)
    ensures var t := Step(w, Locked(h, mint));
      && h < |t.handlers| && !t.handlers[h].doing.Rebinding? && !t.handlers[h].doing.ClosingFor?
      && (t.handlers[h].doing.Checking? <==> w.locks.claims[h].id !in w.active)
  {
    var id := w.locks.claims[h].id;
    if id in w.active { assert !Resumable(w, h, id, w.active[id]); }
    assert LockedStep(w, h, mint) == Cold(w.(locks := Acquire(w.locks, h)), h, mint);
  }

  /** From w to t handler h opened one more session, bound to it and its user's. */
  ghost predicate OpensOne(w: World, t: World, h: nat) {
    && h < |w.handlers| && h < |t.handlers| && |t.sessions| == |w.sessions| + 1
    && t.handlers[h].doing == Starting(|w.sessions|)
    && t.sessions[|w.sessions|].user == w.handlers[h].user && t.sessions[|w.sessions|].send == To(h)
  }

  /** That session has the id whose lock h holds, or an id the server made. */
  ghost predicate Under(t: World, h: nat, mint: nat, honored: bool) {
    && |t.sessions| > 0 && (h in t.locks.claims <==> honored)
    && t.sessions[|t.sessions| - 1].id == (if h in t.locks.claims then t.locks.claims[h].id else mint)
  }

  lemma StartOnOpens(w: World, h: nat, mint: nat)
    requires h < |w.handlers| && (w.handlers[h].session.Some? ==> w.handlers[h].session.value < |w.sessions|)
    requires |StartOn(w, h, mint).sessions| != |w.sessions|
    ensures OpensOne(w, StartOn(w, h, mint), h) && Under(StartOn(w, h, mint), h, mint, h in w.locks.claims)
  {}

  lemma ColdOpens(w: World, h: nat, mint: nat)
    requires StartLocks.Inv(w.locks) && h < |w.handlers| && h in w.locks.claims
    requires w.handlers[h].session.Some? ==> w.handlers[h].session.value < |w.sessions|
    requires |Cold(w, h, mint).sessions| != |w.sessions|
    ensures OpensOne(w, Cold(w, h, mint), h) && Under(Cold(w, h, mint), h, mint, false)
  {
    Unlocked(w, h);
    StartOnOpens(Unlock(w, h), h, mint);
  }

  lemma LockedCold(w: World, h: nat, mint: nat)
    requires Enabled(w, Locked(h, mint)) && |LockedStep(w, h, mint).sessions| != |w.sessions|
    ensures LockedStep(w, h, mint) == Cold(w.(locks := Acquire(w.locks, h)), h, mint)
  {}

  lemma LockedOpens(w: World, h: nat, mint: nat)
    requires StartLocks.Inv(w.locks) && Enabled(w, Locked(h, mint))
    requires |LockedStep(w, h, mint).sessions| != |w.sessions|
    ensures OpensOne(w, LockedStep(w, h, mint), h) && Under(LockedStep(w, h, mint), h, mint, false)
  {
    var u := w.(locks := Acquire(w.locks, h));
    AcquireKeeps(w.locks, h);
    LockedCold(w, h, mint);
    ColdOpens(u, h, mint);
    SameOpening(w, u, LockedStep(w, h, mint), h);
  }

  lemma SameOpening(w: World, u: World, t: World, h: nat)
    requires u == w.(locks := u.locks) && OpensOne(u, t, h)
    ensures OpensOne(w, t, h)
  {}

  lemma OldClosedOpens(w: World, h: nat, mint: nat)
    requires StartLocks.Inv(w.locks) && Enabled(w, OldClosed(h, mint))
    requires |OldClosedStep(w, h, mint).sessions| != |w.sessions|
    ensures OpensOne(w, OldClosedStep(w, h, mint), h)
    ensures Under(OldClosedStep(w, h, mint), h, mint, h in w.locks.claims && w.handlers[h].doing.ClosingOld?)
  {
    if w.handlers[h].doing.ClosingFor? { ColdOpens(Put(w, h, w.handlers[h].(session := None)), h, mint); }
  }

  lemma CheckedOpens(w: World, h: nat, answer: Answer, mint: nat)
    requires StartLocks.Inv(w.locks) && Enabled(w, Checked(h, answer, mint))
    requires |CheckedStep(w, h, answer, mint).sessions| != |w.sessions|
    ensures OpensOne(w, CheckedStep(w, h, answer, mint), h)
    ensures Under(CheckedStep(w, h, answer, mint), h, mint, answer.Honored?)
  {
    Unlocked(w, h);
    StartOnOpens(if answer.Honored? then w else Unlock(w, h), h, mint);
  }

  lemma GoneOpens(w: World, h: nat, mint: nat)
    requires StartLocks.Inv(w.locks) && Enabled(w, RecordingGone(h, mint))
    ensures OpensOne(w, Step(w, RecordingGone(h, mint)), h) && Under(Step(w, RecordingGone(h, mint)), h, mint, false)
  {
    Unlocked(Close(w, w.handlers[h].doing.session), h);
  }

  /** The store has said that this handler's user may reopen the id whose lock it holds. */
  predicate Honors(w: World, e: Event) {
    && (e.Checked? ==> e.answer.Honored?) && (e.Checked? || e.OldClosed?)
    && e.h in w.locks.claims && e.h < |w.handlers| && !w.handlers[e.h].doing.ClosingFor?
  }

  lemma PresentOpens(w: World, e: Event)
    requires Enabled(w, e) && e.Present? && |Step(w, e).sessions| != |w.sessions|
    ensures OpensOne(w, Step(w, e), e.h) && Under(Step(w, e), e.h, e.mint, false)
  {
    StartOnOpens(w, e.h, e.mint);
  }

  /** Only the steps that go on with a start open a session. */
  lemma OnlyStartsOpen(w: World, e: Event)
    requires Enabled(w, e) && |Step(w, e).sessions| != |w.sessions|
    ensures e.Present? || e.Locked? || e.OldClosed? || e.Checked? || e.RecordingGone?
  {}

  /**
   * A session a step opens is its handler's user's, and has the presented id only when the store has
   * honored it and its lock is still held; any other gets an id the server makes.
   */
  lemma OpenedUnder(run: seq<Event>, w: World, e: Event)
    requires HandlerOwnership.IsRun(IDLE, run, w) && Enabled(w, e) && |Step(w, e).sessions| != |w.sessions|
    ensures e.Present? || e.Locked? || e.OldClosed? || e.Checked? || e.RecordingGone?
    ensures OpensOne(w, Step(w, e), e.h) && Under(Step(w, e), e.h, e.mint, Honors(w, e))
  {
    HandlerOwnership.RunsKeepLocks(IDLE, run, w);
    OnlyStartsOpen(w, e);
    match e
    case Present(_, _, _) => PresentOpens(w, e);
    case Locked(h, mint) => LockedOpens(w, h, mint);
    case OldClosed(h, mint) => OldClosedOpens(w, h, mint);
    case Checked(h, answer, mint) => CheckedOpens(w, h, answer, mint);
    case RecordingGone(h, mint) => GoneOpens(w, h, mint);
  }

  /** A start that is not resumed does go on: a session opens, once the handler's old one has been closed. */
  lemma StartsGoOn(w: World, e: Event)
    requires Enabled(w, e)
    requires (e.Present? && e.id.None?) || (e.Checked? && !e.answer.Failed?) || e.RecordingGone?
             || (e.OldClosed? && w.handlers[e.h].doing.ClosingOld?)
    ensures var t, was := Step(w, e), w.handlers[e.h].session;
      if was.Some? && !e.OldClosed? && !e.RecordingGone?
      then e.h < |t.handlers| && t.handlers[e.h].doing == ClosingOld
           && was.value < |t.sessions| && t.sessions[was.value].closed
      else OpensOne(w, t, e.h)
  {}

  /** The old session closed, a resume takes its target over exactly if that is still open. */
  lemma ResumesAfterClose(w: World, h: nat, mint: nat)
    requires Enabled(w, OldClosed(h, mint)) && w.handlers[h].doing.ClosingFor?
    ensures var t, x := Step(w, OldClosed(h, mint)), w.handlers[h].doing.target;
      && h < |t.handlers| && (t.handlers[h].doing.Rebinding? <==> !w.sessions[x].closed)
      && (t.handlers[h].doing.Rebinding? ==> TakenOver(w, t, h, x))
  {}
}
