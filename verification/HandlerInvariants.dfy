/** Every step of the handlers, while minted ids are kept until registered, keeps the invariant. */
module HandlerInvariants {
  import opened Prelude
  import opened StartLocks
  import opened Handlers

  /** Everything but what concerns handler h alone. */
  ghost predicate Rest(w: World, h: nat) {
    && StartLocks.Inv(w.locks)
    && (forall g :: g in w.locks.claims ==> g < |w.handlers|)
    && (forall id :: id in w.active ==> ActiveOk(w, id))
    && (forall s :: 0 <= s < |w.sessions| ==> SessionOk(w, s))
    && (forall g :: 0 <= g < |w.handlers| && g != h ==> HandlerOk(w, g))
    && StartsApart(w)
  }

  predicate Starts(r: Handler) { r.doing.Starting? || r.doing.Announcing? }

  // ---- Pieces of steps -----------------------------------------------------

  lemma CloseKeeps(w: World, h: nat, s: nat)
    requires Rest(w, h) && s < |w.sessions|
    requires forall g :: 0 <= g < |w.handlers| && g != h ==> !StartsSession(w.handlers[g], s)
    ensures Rest(Close(w, s), h)
  {
    var t := Close(w, s);
    forall id | id in t.active ensures ActiveOk(t, id) { assert ActiveOk(w, id); }
    forall x | 0 <= x < |t.sessions| ensures SessionOk(t, x) { assert SessionOk(w, x); }
    forall g | 0 <= g < |t.handlers| && g != h ensures HandlerOk(t, g) { assert HandlerOk(w, g); }
  }

  /** Only handler h's claim has changed: it went, or was granted. */
  ghost predicate OtherClaimsSame(w: World, t: World, h: nat) {
    && t == w.(locks := t.locks) && StartLocks.Inv(t.locks)
    && (forall g :: g != h ==> (g in t.locks.claims <==> g in w.locks.claims))
    && (forall g :: g in t.locks.claims ==> g in w.locks.claims && t.locks.claims[g].id == w.locks.claims[g].id)
    && (forall g :: g in t.locks.claims && g != h ==> t.locks.claims[g] == w.locks.claims[g])
  }

  lemma LocksFrame(w: World, t: World, h: nat)
    requires Rest(w, h) && OtherClaimsSame(w, t, h)
    ensures Rest(t, h)
  {
    forall id | id in t.active ensures ActiveOk(t, id) { assert ActiveOk(w, id); }
    forall x | 0 <= x < |t.sessions| ensures SessionOk(t, x) { assert SessionOk(w, x); }
    forall g | 0 <= g < |t.handlers| && g != h ensures HandlerOk(t, g) { OtherHandlerFrame(w, t, h, g); }
  }

  lemma OtherHandlerFrame(w: World, t: World, h: nat, g: nat)
    requires OtherClaimsSame(w, t, h) && g != h && g < |w.handlers| && HandlerOk(w, g)
    ensures HandlerOk(t, g)
  {
    if Starts(w.handlers[g]) { ClaimIdsFrame(w, t, g, h); }
  }

  lemma ClaimIdsFrame(w: World, t: World, g: nat, h: nat)
    requires OtherClaimsSame(w, t, h) && g != h && g < |w.handlers| && Starts(w.handlers[g])
    requires w.handlers[g].doing.session < |w.sessions| && StartOk(w, g, w.handlers[g].doing.session)
    ensures StartOk(t, g, w.handlers[g].doing.session)
  {}

  lemma UnlockKeeps(w: World, h: nat)
    requires Rest(w, h)
    ensures Rest(Unlock(w, h), h) && h !in Unlock(w, h).locks.claims && OtherClaimsSame(w, Unlock(w, h), h)
  {
    if h in w.locks.claims { ExitKeeps(w.locks, h); }
    var t := Unlock(w, h);
    assert OtherClaimsSame(w, t, h);
    LocksFrame(w, t, h);
  }

  /** Session s is live and bound to handler h, which owns it. */
  predicate LiveAt(w: World, s: nat, h: nat)
    requires s < |w.sessions| && h < |w.handlers|
  {
    !w.sessions[s].closed && Owns(w.handlers[h], s) && w.sessions[s].send == To(h)
  }

  /** A handler moving on, neither starting a live session before nor after, keeps the rest. */
  lemma MoveKeeps(w: World, h: nat, r: Handler)
    requires Rest(w, h) && h < |w.handlers| && !Starts(r)
    requires forall s :: 0 <= s < |w.sessions| && LiveAt(w, s, h) ==> Owns(r, s) && !StartsSession(w.handlers[h], s)
    ensures Rest(Put(w, h, r), h)
  {
    var t := Put(w, h, r);
    forall id | id in t.active ensures ActiveOk(t, id) { assert ActiveOk(w, id); }
    forall x | 0 <= x < |t.sessions| ensures SessionOk(t, x) { assert SessionOk(w, x); }
    forall g | 0 <= g < |t.handlers| && g != h ensures HandlerOk(t, g) { assert HandlerOk(w, g); }
  }

  /** The id a new session of handler h would have is nobody's in any way. */
  ghost predicate IdFree(w: World, h: nat, id: nat) {
    && id !in w.active
    && (forall s :: 0 <= s < |w.sessions| && BeingStarted(w, s) ==> w.sessions[s].id != id)
    && (h !in w.locks.claims ==> forall g :: g in w.locks.claims ==> w.locks.claims[g].id != id)
  }

  function StartId(w: World, h: nat, mint: nat): nat {
    if h in w.locks.claims then w.locks.claims[h].id else mint
  }

  /** Handler h, past its old session if it had one, may open a new one under the id it starts. */
  ghost predicate CanOpen(w: World, h: nat, mint: nat) {
    && Rest(w, h) && h < |w.handlers| && IdFree(w, h, StartId(w, h, mint))
    && !w.handlers[h].over && !w.handlers[h].displaced && !Starts(w.handlers[h])
    && (h in w.locks.claims ==> w.locks.claims[h].held)
    && (w.handlers[h].session.Some? ==>
         w.handlers[h].session.value < |w.sessions| && w.sessions[w.handlers[h].session.value].closed)
  }

  lemma OpenSession(w: World, h: nat, mint: nat, x: nat)
    requires CanOpen(w, h, mint) && x <= |w.sessions|
    ensures SessionOk(Open(w, h, mint), x)
  {
    if x < |w.sessions| { assert SessionOk(w, x) && Open(w, h, mint).sessions[x] == w.sessions[x]; }
  }

  lemma OpenHandler(w: World, h: nat, mint: nat, g: nat)
    requires CanOpen(w, h, mint) && g < |w.handlers|
    ensures HandlerOk(Open(w, h, mint), g)
  {
    if g != h { assert HandlerOk(w, g); }
  }

  lemma OpenApart(w: World, h: nat, mint: nat)
    requires CanOpen(w, h, mint)
    ensures StartsApart(Open(w, h, mint))
  {
    var t, n := Open(w, h, mint), |w.sessions|;
    forall a | 0 <= a < n ensures BeingStarted(t, a) ==> BeingStarted(w, a) && t.sessions[a].id != t.sessions[n].id {
      assert BeingStarted(t, a) ==> BeingStarted(w, a);
    }
  }

  lemma OpenKeeps(w: World, h: nat, mint: nat)
    requires CanOpen(w, h, mint)
    ensures Handlers.Inv(Open(w, h, mint))
  {
    var t := Open(w, h, mint);
    forall id | id in t.active ensures ActiveOk(t, id) { assert ActiveOk(w, id); }
    forall x | 0 <= x < |t.sessions| ensures SessionOk(t, x) { OpenSession(w, h, mint, x); }
    forall g | 0 <= g < |t.handlers| ensures HandlerOk(t, g) { OpenHandler(w, h, mint, g); }
    OpenApart(w, h, mint);
  }

  /** Nobody is starting a session under the id whose lock h holds, when h is not. */
  lemma HolderStartsAlone(w: World, h: nat, s: nat)
    requires Rest(w, h) && h < |w.handlers| && !Starts(w.handlers[h]) && h in w.locks.claims && w.locks.claims[h].held
    requires s < |w.sessions| && BeingStarted(w, s)
    ensures w.sessions[s].id != w.locks.claims[h].id
  {
    var g := w.sessions[s].send.h;
    assert HandlerOk(w, g) && StartOk(w, g, s);
    if g in w.locks.claims && w.sessions[s].id == w.locks.claims[h].id { MutualExclusion(w.locks, g, h); }
  }

  lemma HeldIdFree(w: World, h: nat)
    requires Rest(w, h) && h < |w.handlers| && !Starts(w.handlers[h]) && h in w.locks.claims && w.locks.claims[h].held
    requires w.locks.claims[h].id !in w.active
    ensures IdFree(w, h, w.locks.claims[h].id)
  {
    forall s | 0 <= s < |w.sessions| && BeingStarted(w, s) ensures w.sessions[s].id != w.locks.claims[h].id {
      HolderStartsAlone(w, h, s);
    }
  }

  lemma FreshIdFree(w: World, h: nat, mint: nat)
    requires Rest(w, h) && Fresh(w, mint)
    ensures IdFree(w, h, mint)
  {
    assert mint in w.active ==> ActiveOk(w, mint);
  }

  /** What taking over session s needs of the world: h holds the lock of its id, and it is not being started. */
  ghost predicate CanTake(w: World, h: nat, s: nat) {
    && Rest(w, h) && h < |w.handlers| && s < |w.sessions|
    && h in w.locks.claims && w.locks.claims[h].held && w.locks.claims[h].id == w.sessions[s].id
    && !w.sessions[s].closed && !BeingStarted(w, s)
    && !w.handlers[h].over && !w.handlers[h].displaced && !Starts(w.handlers[h])
    && (w.handlers[h].session.Some? ==> w.handlers[h].session.value < |w.sessions|)
    && (w.handlers[h].session.Some? && w.handlers[h].session.value != s ==>
         w.sessions[w.handlers[h].session.value].closed)
  }

  lemma TakeoverSelf(w: World, h: nat, s: nat)
    requires CanTake(w, h, s)
    ensures HandlerOk(Takeover(w, h, s), h)
  {
    assert SessionOk(w, s);
  }

  /** The handler taken from is displaced; nobody else was rebinding the session, whose lock h holds. */
  lemma TakeoverHolds(w: World, h: nat, s: nat, g: nat, x: nat)
    requires CanTake(w, h, s) && g < |w.handlers| && g != h && HandlerOk(w, g) && w.handlers[g].session == Some(x)
    ensures |Takeover(w, h, s).sessions| == |w.sessions| && |Takeover(w, h, s).handlers| == |w.handlers|
    ensures HoldsOk(Takeover(w, h, s), g, x)
  {
    assert SessionOk(w, s);
    if x == s && w.handlers[g].doing.Rebinding? { MutualExclusion(w.locks, g, h); }
  }

  lemma TakeoverStarts(w: World, h: nat, s: nat, g: nat)
    requires CanTake(w, h, s) && g < |w.handlers| && g != h && HandlerOk(w, g) && Starts(w.handlers[g])
    ensures Takeover(w, h, s).handlers[g] == w.handlers[g]
    ensures StartOk(Takeover(w, h, s), g, w.handlers[g].doing.session)
  {
    assert SessionOk(w, s);
    assert StartOk(w, g, w.handlers[g].doing.session) && BeingStarted(w, w.handlers[g].doing.session);
  }

  /** A handler is left as it was, unless it is the one taken from, which waits for nothing of its own. */
  lemma TakeoverOther(w: World, h: nat, s: nat, g: nat)
    requires CanTake(w, h, s) && g < |w.handlers| && g != h && HandlerOk(w, g)
    ensures var r, q := w.handlers[g], Takeover(w, h, s).handlers[g];
      || q == r
      || (&& q == r.(displaced := true) && r.session == Some(s)
          && !Starts(r) && !r.doing.ClosingFor? && !r.doing.ClosingOld?)
  {
    assert SessionOk(w, s);
  }

  lemma TakeoverTarget(w: World, h: nat, s: nat, target: nat)
    requires CanTake(w, h, s) && target < |w.sessions| && !BeingStarted(w, target)
    ensures |Takeover(w, h, s).sessions| == |w.sessions| && !BeingStarted(Takeover(w, h, s), target)
  {
    assert SessionOk(w, s);
  }

  lemma TakeoverHandler(w: World, h: nat, s: nat, g: nat)
    requires CanTake(w, h, s) && g < |w.handlers|
    ensures HandlerOk(Takeover(w, h, s), g)
  {
    var r := w.handlers[g];
    if g == h {
      TakeoverSelf(w, h, s);
    } else {
      assert HandlerOk(w, g);
      TakeoverOther(w, h, s, g);
      if r.session.Some? { TakeoverHolds(w, h, s, g, r.session.value); }
      if Starts(r) { TakeoverStarts(w, h, s, g); }
      if r.doing.ClosingFor? { TakeoverTarget(w, h, s, r.doing.target); }
    }
  }

  lemma TakeoverApart(w: World, h: nat, s: nat)
    requires CanTake(w, h, s)
    ensures StartsApart(Takeover(w, h, s))
  {
    var t := Takeover(w, h, s);
    assert SessionOk(w, s);
    forall a | 0 <= a < |t.sessions| ensures BeingStarted(t, a) ==> BeingStarted(w, a) {}
    forall a | 0 <= a < |t.sessions| ensures t.sessions[a].id == w.sessions[a].id {}
  }

  lemma TakeoverKeeps(w: World, h: nat, s: nat)
    requires CanTake(w, h, s)
    ensures Handlers.Inv(Takeover(w, h, s))
  {
    var t := Takeover(w, h, s);
    forall id | id in t.active ensures ActiveOk(t, id) { assert ActiveOk(w, id); }
    forall x | 0 <= x < |t.sessions| ensures SessionOk(t, x) { TakeoverSession(w, h, s, x); }
    forall g | 0 <= g < |t.handlers| ensures HandlerOk(t, g) { TakeoverHandler(w, h, s, g); }
    TakeoverApart(w, h, s);
  }

  lemma TakeoverSession(w: World, h: nat, s: nat, x: nat)
    requires CanTake(w, h, s) && x < |w.sessions|
    ensures SessionOk(Takeover(w, h, s), x)
  {
    var before := w.sessions[s].send;
    assert SessionOk(w, s) && SessionOk(w, x);
    if x != s {
      assert Takeover(w, h, s).sessions[x] == w.sessions[x];
      assert before.To? && before.h != h ==> HandlerOk(w, before.h);
    }
  }

  // ---- Each step -----------------------------------------------------------

  lemma StartOnKeeps(w: World, h: nat, mint: nat)
    requires Rest(w, h) && h < |w.handlers| && IdFree(w, h, StartId(w, h, mint))
    requires !w.handlers[h].over && !w.handlers[h].displaced && !Starts(w.handlers[h])
    requires h in w.locks.claims ==> w.locks.claims[h].held
    requires w.handlers[h].session.Some? ==>
               w.handlers[h].session.value < |w.sessions| && !BeingStarted(w, w.handlers[h].session.value)
    ensures Handlers.Inv(StartOn(w, h, mint))
  {
    if w.handlers[h].session.Some? {
      var s := w.handlers[h].session.value;
      NotStartedBy(w, h, s);
      CloseKeeps(w, h, s);
      var u := Close(w, s);
      MoveKeeps(u, h, u.handlers[h].(doing := ClosingOld));
      assert HandlerOk(StartOn(w, h, mint), h);
    } else {
      OpenKeeps(w, h, mint);
    }
  }

  lemma NotStartedBy(w: World, h: nat, s: nat)
    requires Rest(w, h) && s < |w.sessions| && !BeingStarted(w, s)
    ensures forall g :: 0 <= g < |w.handlers| && g != h ==> !StartsSession(w.handlers[g], s)
  {
    forall g | 0 <= g < |w.handlers| && g != h ensures !StartsSession(w.handlers[g], s) {
      assert HandlerOk(w, g);
    }
  }

  /** A handler's own session, live and with the handler not rebinding it, is not being started. */
  lemma OwnNotStarted(w: World, h: nat)
    requires Rest(w, h) && h < |w.handlers| && w.handlers[h].session.Some? && w.handlers[h].session.value < |w.sessions|
    requires HandlerOk(w, h) && !Starts(w.handlers[h]) && !w.handlers[h].over
    ensures !w.handlers[h].displaced ==> !BeingStarted(w, w.handlers[h].session.value)
  {
    var s := w.handlers[h].session.value;
    assert BeingStarted(w, s) ==> HandlerOk(w, w.sessions[s].send.h);
  }

  lemma InvRest(w: World, h: nat)
    requires Handlers.Inv(w)
    ensures Rest(w, h) && (h < |w.handlers| ==> HandlerOk(w, h))
  {}

  lemma ConnectKeeps(w: World, user: User)
    requires Handlers.Inv(w)
    ensures Handlers.Inv(Step(w, Connect(user)))
  {
    var t := Step(w, Connect(user));
    forall id | id in t.active ensures ActiveOk(t, id) { assert ActiveOk(w, id); }
    forall x | 0 <= x < |t.sessions| ensures SessionOk(t, x) { assert SessionOk(w, x); }
    forall g | 0 <= g < |t.handlers| ensures HandlerOk(t, g) {
      if g < |w.handlers| { assert HandlerOk(w, g); }
    }
  }

  lemma PresentKeeps(w: World, h: nat, id: Option<nat>, mint: nat)
    requires Handlers.Inv(w) && Enabled(w, Present(h, id, mint)) && Clean(w, Present(h, id, mint))
    ensures Handlers.Inv(Step(w, Present(h, id, mint)))
  {
    InvRest(w, h);
    if id.None? {
      FreshIdFree(w, h, mint);
      if w.handlers[h].session.Some? { OwnNotStarted(w, h); }
      StartOnKeeps(w, h, mint);
    } else {
      EnterKeeps(w.locks, h, id.value);
      var u := w.(locks := Enter(w.locks, h, id.value));
      EnteredKeeps(w, h, id.value);
      MoveKeeps(u, h, u.handlers[h].(doing := AwaitingLock));
      assert HandlerOk(Step(w, Present(h, id, mint)), h);
    }
  }

  lemma EnteredKeeps(w: World, h: nat, id: nat)
    requires Handlers.Inv(w) && h !in w.locks.claims && h < |w.handlers| && !Starts(w.handlers[h])
    requires forall g :: 0 <= g < |w.handlers| ==> !Minting(w, g, id)
    ensures Rest(w.(locks := Enter(w.locks, h, id)), h)
  {
    EnterKeeps(w.locks, h, id);
    var t := w.(locks := Enter(w.locks, h, id));
    forall other | other in t.active ensures ActiveOk(t, other) { assert ActiveOk(w, other); }
    forall x | 0 <= x < |t.sessions| ensures SessionOk(t, x) { assert SessionOk(w, x); }
    forall g | 0 <= g < |t.handlers| && g != h ensures HandlerOk(t, g) { EnteredHandler(w, t, h, id, g); }
  }

  lemma EnteredHandler(w: World, t: World, h: nat, id: nat, g: nat)
    requires g < |w.handlers| && g != h && HandlerOk(w, g) && !Minting(w, g, id)
    requires h in t.locks.claims && t.locks.claims[h].id == id
    requires t == w.(locks := t.locks) && t.locks.claims == w.locks.claims[h := t.locks.claims[h]]
    ensures HandlerOk(t, g)
  {}

  lemma AcquireClaims(l: Locks, h: nat)
    requires CanAcquire(l, h)
    ensures Acquire(l, h).claims.Keys == l.claims.Keys
    ensures forall g :: g in l.claims && g != h ==> Acquire(l, h).claims[g] == l.claims[g]
    ensures forall g :: g in l.claims ==> Acquire(l, h).claims[g].id == l.claims[g].id
  {}

  lemma AcquiredKeeps(w: World, h: nat, l: Locks)
    requires Handlers.Inv(w) && CanAcquire(w.locks, h) && l == Acquire(w.locks, h)
    ensures Rest(w.(locks := l), h)
  {
    AcquireKeeps(w.locks, h);
    AcquireClaims(w.locks, h);
    LocksFrame(w, w.(locks := l), h);
  }

  lemma RegisteredNotStarted(w: World, h: nat, s: nat)
    requires Rest(w, h) && h < |w.handlers| && !Starts(w.handlers[h])
    requires s < |w.sessions| && Registered(w.active, w.sessions[s].id, s)
    ensures !BeingStarted(w, s)
  {
    assert BeingStarted(w, s) ==> HandlerOk(w, w.sessions[s].send.h);
  }

  /** Handler h, inside its lock and undisplaced, with a session of its own that is nobody's start. */
  ghost predicate Inside(w: World, h: nat) {
    && Rest(w, h) && h < |w.handlers| && h in w.locks.claims && w.locks.claims[h].held
    && !w.handlers[h].over && !w.handlers[h].displaced && !Starts(w.handlers[h])
    && (w.handlers[h].session.Some? ==>
         && w.handlers[h].session.value < |w.sessions| && !BeingStarted(w, w.handlers[h].session.value)
         && (!w.sessions[w.handlers[h].session.value].closed ==> w.sessions[w.handlers[h].session.value].send == To(h)))
  }

  lemma FreshStartKeeps(w: World, h: nat, mint: nat)
    requires Inside(w, h) && Fresh(w, mint)
    ensures Handlers.Inv(StartOn(Unlock(w, h), h, mint))
  {
    UnlockKeeps(w, h);
    var u := Unlock(w, h);
    FreshIdFree(u, h, mint);
    StartOnKeeps(u, h, mint);
  }

  lemma ColdKeeps(w: World, h: nat, mint: nat)
    requires Inside(w, h) && Fresh(w, mint)
    ensures Handlers.Inv(Cold(w, h, mint))
  {
    if w.locks.claims[h].id in w.active {
      FreshStartKeeps(w, h, mint);
    } else {
      MoveKeeps(w, h, w.handlers[h].(doing := Checking));
      assert HandlerOk(Do(w, h, Checking), h);
    }
  }

  /** The lock acquired, nothing decided yet. */
  lemma LockedInside(w: World, h: nat, l: Locks)
    requires Handlers.Inv(w) && WellFormed(w, h) && w.handlers[h].doing.AwaitingLock? && !w.handlers[h].displaced
    requires CanAcquire(w.locks, h) && l == Acquire(w.locks, h)
    ensures Inside(w.(locks := l), h)
  {
    AcquiredKeeps(w, h, l);
    InvRest(w, h);
    if w.handlers[h].session.Some? {
      OwnNotStarted(w, h);
      assert HoldsOk(w, h, w.handlers[h].session.value);
      assert !BeingStarted(w.(locks := l), w.handlers[h].session.value);
    }
  }

  lemma CloseForKeeps(w: World, h: nat, target: nat)
    requires Inside(w, h) && w.handlers[h].session.Some? && w.handlers[h].session.value != target
    requires target < |w.sessions| && w.locks.claims[h].id == w.sessions[target].id && !BeingStarted(w, target)
    ensures Handlers.Inv(Do(Close(w, w.handlers[h].session.value), h, ClosingFor(target)))
  {
    var s := w.handlers[h].session.value;
    NotStartedBy(w, h, s);
    CloseKeeps(w, h, s);
    var u := Close(w, s);
    var t := Do(u, h, ClosingFor(target));
    MoveKeeps(u, h, u.handlers[h].(doing := ClosingFor(target)));
    assert !BeingStarted(t, target);
    assert HandlerOk(t, h);
  }

  lemma LockedKeeps(w: World, h: nat, mint: nat)
    requires Handlers.Inv(w) && Enabled(w, Locked(h, mint))
    ensures Handlers.Inv(LockedStep(w, h, mint))
  {
    var l := Acquire(w.locks, h);
    var u := w.(locks := l);
    AcquireClaims(w.locks, h);
    LockedInside(w, h, l);
    assert Fresh(u, mint);
    var id, session := w.locks.claims[h].id, w.handlers[h].session;
    if id in w.active && SameUser(w.sessions[w.active[id]], w.handlers[h]) {
      var target := w.active[id];
      assert ActiveOk(w, id);
      RegisteredNotStarted(u, h, target);
      if session.Some? && session.value != target {
        CloseForKeeps(u, h, target);
      } else {
        assert CanTake(u, h, target);
        TakeoverKeeps(u, h, target);
      }
    } else {
      ColdKeeps(u, h, mint);
    }
  }

  lemma OldClosedKeeps(w: World, h: nat, mint: nat)
    requires Handlers.Inv(w) && Enabled(w, OldClosed(h, mint))
    ensures Handlers.Inv(OldClosedStep(w, h, mint))
  {
    InvRest(w, h);
    if w.handlers[h].doing.ClosingFor? {
      var target := w.handlers[h].doing.target;
      var r := w.handlers[h].(session := None);
      MoveKeeps(w, h, r);
      var u := Put(w, h, r);
      assert !BeingStarted(u, target);
      if !w.sessions[target].closed { TakeoverKeeps(u, h, target); } else { ColdKeeps(u, h, mint); }
    } else {
      if h in w.locks.claims { HeldIdFree(w, h); } else { FreshIdFree(w, h, mint); }
      OpenKeeps(w, h, mint);
    }
  }

  lemma CheckFailedKeeps(w: World, h: nat)
    requires Handlers.Inv(w) && WellFormed(w, h) && w.handlers[h].doing.Checking?
    ensures Handlers.Inv(Do(Unlock(w, h), h, Reading))
  {
    InvRest(w, h);
    UnlockKeeps(w, h);
    var u := Unlock(w, h);
    MoveKeeps(u, h, u.handlers[h].(doing := Reading));
    assert HandlerOk(Do(u, h, Reading), h);
  }

  lemma CheckedKeeps(w: World, h: nat, answer: Answer, mint: nat)
    requires Handlers.Inv(w) && Enabled(w, Checked(h, answer, mint))
    ensures Handlers.Inv(CheckedStep(w, h, answer, mint))
  {
    InvRest(w, h);
    if answer.Failed? {
      CheckFailedKeeps(w, h);
    } else {
      if w.handlers[h].session.Some? { OwnNotStarted(w, h); }
      assert Inside(w, h);
      if answer.Refused? {
        FreshStartKeeps(w, h, mint);
      } else {
        HeldIdFree(w, h);
        StartOnKeeps(w, h, mint);
      }
    }
  }

  lemma AnnounceKeeps(w: World, h: nat)
    requires Handlers.Inv(w) && Enabled(w, Announce(h))
    ensures Handlers.Inv(Step(w, Announce(h)))
  {
    var t := Step(w, Announce(h));
    assert HandlerOk(w, h);
    forall id | id in t.active ensures ActiveOk(t, id) { assert ActiveOk(w, id); }
    forall x | 0 <= x < |t.sessions| ensures SessionOk(t, x) { assert SessionOk(w, x); }
    forall g | 0 <= g < |t.handlers| ensures HandlerOk(t, g) { assert HandlerOk(w, g); }
    forall x | 0 <= x < |t.sessions| ensures BeingStarted(t, x) <==> BeingStarted(w, x) {}
  }

  /** A start given up: its session is closed, its lock let go. */
  lemma AbandonKeeps(w: World, h: nat)
    requires Handlers.Inv(w) && WellFormed(w, h) && Starts(w.handlers[h])
    ensures Rest(Unlock(Close(w, w.handlers[h].doing.session), h), h)
    ensures h !in Unlock(Close(w, w.handlers[h].doing.session), h).locks.claims
  {
    var s := w.handlers[h].doing.session;
    InvRest(w, h);
    forall g | 0 <= g < |w.handlers| && g != h ensures !StartsSession(w.handlers[g], s) { assert HandlerOk(w, g); }
    CloseKeeps(w, h, s);
    UnlockKeeps(Close(w, s), h);
  }

  /** Handler h moves on from an abandoned start. */
  lemma AbandonedKeeps(w: World, u: World, h: nat, over: bool)
    requires Handlers.Inv(w) && WellFormed(w, h) && Starts(w.handlers[h])
    requires u == Unlock(Close(w, w.handlers[h].doing.session), h)
    ensures Handlers.Inv(Put(u, h, w.handlers[h].(over := over, doing := Reading)))
  {
    AbandonKeeps(w, h);
    assert HandlerOk(w, h);
    var r := w.handlers[h].(over := over, doing := Reading);
    MoveKeeps(u, h, r);
    assert HandlerOk(Put(u, h, r), h);
  }

  lemma RecordingGoneKeeps(w: World, h: nat, mint: nat)
    requires Handlers.Inv(w) && Enabled(w, RecordingGone(h, mint))
    ensures Handlers.Inv(Step(w, RecordingGone(h, mint)))
  {
    AbandonKeeps(w, h);
    assert HandlerOk(w, h);
    var u := Unlock(Close(w, w.handlers[h].doing.session), h);
    var r := w.handlers[h].(doing := Reading);
    MoveKeeps(u, h, r);
    FreshIdFree(Put(u, h, r), h, mint);
    OpenKeeps(Put(u, h, r), h, mint);
    assert Open(Put(u, h, r), h, mint) == Open(u, h, mint);
  }

  lemma EndKeeps(w: World, h: nat)
    requires Handlers.Inv(w) && Enabled(w, End(h))
    ensures Handlers.Inv(Step(w, End(h)))
  {
    var s := w.handlers[h].session.value;
    InvRest(w, h);
    OwnNotStarted(w, h);
    NotStartedBy(w, h, s);
    CloseKeeps(w, h, s);
    var u := Close(w, s);
    MoveKeeps(u, h, w.handlers[h].(session := None));
    assert HandlerOk(Step(w, End(h)), h);
  }

  /** Closing a session nobody is starting: a grace period over, or a revoke. */
  lemma CloseAnyKeeps(w: World, s: nat)
    requires Handlers.Inv(w) && s < |w.sessions| && !BeingStarted(w, s)
    ensures Handlers.Inv(Close(w, s))
  {
    var h := |w.handlers|;
    InvRest(w, h);
    NotStartedBy(w, h, s);
    CloseKeeps(w, h, s);
  }

  lemma DoomOthers(w: World, s: nat, g: nat)
    requires Handlers.Inv(w) && Enabled(w, Doom(s)) && g < |w.handlers|
    ensures HandlerOk(Step(w, Doom(s)), g)
  {
    assert HandlerOk(w, g);
  }

  lemma DoomSession(w: World, s: nat, x: nat)
    requires Handlers.Inv(w) && Enabled(w, Doom(s)) && x < |w.sessions|
    ensures SessionOk(Step(w, Doom(s)), x)
  {
    assert SessionOk(w, x);
  }

  lemma DoomKeeps(w: World, s: nat)
    requires Handlers.Inv(w) && Enabled(w, Doom(s))
    ensures Handlers.Inv(Step(w, Doom(s)))
  {
    var t := Step(w, Doom(s));
    forall id | id in t.active ensures ActiveOk(t, id) { assert ActiveOk(w, id); }
    forall x | 0 <= x < |t.sessions| ensures SessionOk(t, x) { DoomSession(w, s, x); }
    forall g | 0 <= g < |t.handlers| ensures HandlerOk(t, g) { DoomOthers(w, s, g); }
    forall x | 0 <= x < |t.sessions| ensures BeingStarted(t, x) <==> BeingStarted(w, x) {}
  }

  lemma DoomedNotStarted(w: World, s: nat)
    requires Handlers.Inv(w) && s < |w.sessions| && (w.sessions[s].doomed || w.sessions[s].detached)
    ensures !BeingStarted(w, s)
  {
    assert BeingStarted(w, s) ==> HandlerOk(w, w.sessions[s].send.h);
  }
}
