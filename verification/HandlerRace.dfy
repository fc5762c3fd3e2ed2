/** When presenting an id can end in one session evicting another from the registry, exactly. */
module HandlerRace {
  import opened Prelude
  import opened StartLocks
  import opened Handlers
  import opened HandlerOwnership

  /** Handler k's registration takes the entry of another session. */
  ghost predicate Evicts(w: World, k: nat) {
    && Enabled(w, Register(k))
    && w.sessions[w.handlers[k].doing.session].id in w.active
    && w.active[w.sessions[w.handlers[k].doing.session].id] != w.handlers[k].doing.session
  }

  /** Handler h, idle and without a session, presents the id x. */
  ghost predicate CanPresent(w: World, h: nat, x: nat, mint: nat) {
    && h < |w.handlers| && w.handlers[h] == Handler(w.handlers[h].user, None, false, false, Reading)
    && Enabled(w, Present(h, Some(x), mint))
  }

  /** Handler g is still minting x, beside which handler h has come as far as `doing` in a start of x too. */
  ghost predicate Beside(w: World, u: World, g: nat, h: nat, x: nat, doing: Doing) {
    && g != h && g < |w.handlers| && h < |w.handlers| && |u.handlers| == |w.handlers| && Minting(w, g, x)
    && u.handlers[g] == w.handlers[g] && g !in u.locks.claims && w.sessions <= u.sessions && x !in u.active
    && u.handlers[h] == Handler(w.handlers[h].user, None, false, false, doing)
    && h in u.locks.claims && u.locks.claims[h].id == x
    && (doing.Starting? || doing.Announcing? ==>
          doing.session == |w.sessions| == |u.sessions| - 1 && u.sessions[|w.sessions|].id == x)
  }

  lemma PresentedWorld(w: World, g: nat, h: nat, x: nat, mint: nat) returns (u: World)
    requires Handlers.Inv(w) && Minting(w, g, x) && CanPresent(w, h, x, mint)
    ensures u == Step(w, Present(h, Some(x), mint)) && u.sessions == w.sessions
    ensures Enabled(u, Locked(h, mint)) && Beside(w, u, g, h, x, AwaitingLock)
  {
    u := Step(w, Present(h, Some(x), mint));
    assert HandlerOk(w, g);
    EntryIffClaimed(w.locks, x);
    forall id | id in u.active ensures u.active[id] < |u.sessions| { assert ActiveOk(w, id); }
  }

  lemma LockedBeside(w: World, u: World, g: nat, h: nat, x: nat, mint: nat) returns (t: World)
    requires Beside(w, u, g, h, x, AwaitingLock) && u.sessions == w.sessions && Enabled(u, Locked(h, mint))
    ensures t == Step(u, Locked(h, mint)) && Beside(w, t, g, h, x, Checking) && t.sessions == w.sessions
    ensures Fresh(t, mint)
  {
    t := Step(u, Locked(h, mint));
  }

  lemma CheckedBeside(w: World, u: World, g: nat, h: nat, x: nat, mint: nat) returns (t: World)
    requires Beside(w, u, g, h, x, Checking) && u.sessions == w.sessions && Fresh(u, mint)
    ensures Enabled(u, Checked(h, Honored, mint)) && t == Step(u, Checked(h, Honored, mint))
    ensures Beside(w, t, g, h, x, Starting(|w.sessions|))
  {
    t := Step(u, Checked(h, Honored, mint));
  }

  lemma RegisteredBeside(w: World, u: World, g: nat, h: nat, x: nat) returns (t: World, v: World)
    requires Beside(w, u, g, h, x, Starting(|w.sessions|))
    ensures Enabled(u, Announce(h)) && t == Step(u, Announce(h)) && Enabled(t, Register(h)) && v == Step(t, Register(h))
    ensures Minting(v, g, x) && v.handlers[g] == w.handlers[g] && x in v.active && v.active[x] == |w.sessions|
  {
    t := Step(u, Announce(h));
    v := Step(t, Register(h));
  }

  /** Handler h goes through the whole start of x while g's is still on its way. */
  lemma StartsBeside(w: World, g: nat, h: nat, x: nat, mint: nat) returns (more: seq<Event>, v: World)
    requires Handlers.Inv(w) && Minting(w, g, x) && CanPresent(w, h, x, mint)
    ensures IsCleanRun(Step(w, Present(h, Some(x), mint)), more, v)
    ensures Minting(v, g, x) && v.handlers[g] == w.handlers[g] && x in v.active && v.active[x] == |w.sessions|
    ensures w.handlers[g].doing.session < |w.sessions|
  {
    var a := PresentedWorld(w, g, h, x, mint);
    var b := LockedBeside(w, a, g, h, x, mint);
    var c := CheckedBeside(w, b, g, h, x, mint);
    var d;
    d, v := RegisteredBeside(w, c, g, h, x);
    more := FourSteps(a, Locked(h, mint), b, Checked(h, Honored, mint), c, Announce(h), d, Register(h), v);
  }

  lemma FourSteps(a: World, e: Event, b: World, f: Event, c: World, g: Event, d: World, h: Event, v: World)
    returns (run: seq<Event>)
    requires Enabled(a, e) && Clean(a, e) && b == Step(a, e) && Enabled(b, f) && Clean(b, f) && c == Step(b, f)
    requires Enabled(c, g) && Clean(c, g) && d == Step(c, g) && Enabled(d, h) && Clean(d, h) && v == Step(d, h)
    ensures IsCleanRun(a, run, v)
  {
    var none := [];
    assert IsCleanRun(v, none, v);
    var r1 := RunFrom(d, h, none, v);
    var r2 := RunFrom(c, g, r1, v);
    var r3 := RunFrom(b, f, r2, v);
    run := RunFrom(a, e, r3, v);
  }

  lemma RunFrom(w: World, e: Event, rest: seq<Event>, end: World) returns (run: seq<Event>)
    requires Enabled(w, e) && Clean(w, e) && IsCleanRun(Step(w, e), rest, end)
    ensures IsCleanRun(w, run, end)
  {
    run := [e] + rest;
    assert run[1..] == rest;
  }

  lemma {:induction false} RunThen(w: World, run: seq<Event>, mid: World, e: Event)
    requires IsCleanRun(w, run, mid) && Enabled(mid, e) && Clean(mid, e)
    ensures IsCleanRun(w, run + [e], Step(mid, e))
    decreases |run|
  {
    if |run| == 0 {
      assert (run + [e])[1..] == [];
    } else {
      RunThen(Step(w, run[0]), run[1..], mid, e);
      assert (run + [e])[1..] == run[1..] + [e];
    }
  }

  /** Once an id still being minted is presented, some continuation has one start evict the other's session. */
  lemma EarlyPresentEvicts(w: World, g: nat, h: nat, x: nat, mint: nat) returns (more: seq<Event>, v: World)
    requires Handlers.Inv(w) && Minting(w, g, x) && CanPresent(w, h, x, mint)
    ensures IsCleanRun(Step(w, Present(h, Some(x), mint)), more, v) && Evicts(v, g)
  {
    more, v := StartsBeside(w, g, h, x, mint);
    if v.handlers[g].doing.Starting? {
      RunThen(Step(w, Present(h, Some(x), mint)), more, v, Announce(g));
      more, v := more + [Announce(g)], Step(v, Announce(g));
    }
  }

  lemma NeverEvicts(w: World, k: nat)
    requires Handlers.Inv(w)
    ensures !Evicts(w, k)
  {
    assert k < |w.handlers| ==> HandlerOk(w, k);
  }

  lemma LateIsSafe(w: World, h: nat, x: nat, mint: nat, more: seq<Event>, v: World, k: nat)
    requires Handlers.Inv(w) && CanPresent(w, h, x, mint) && (forall g: nat :: !Minting(w, g, x))
    requires IsCleanRun(Step(w, Present(h, Some(x), mint)), more, v)
    ensures !Evicts(v, k)
  {
    assert Clean(w, Present(h, Some(x), mint));
    StepKeeps(w, Present(h, Some(x), mint));
    RunsKeep(Step(w, Present(h, Some(x), mint)), more, v);
    NeverEvicts(v, k);
  }

  /** Some clean continuation of presenting the id ends with a registration that evicts. */
  ghost predicate CanEvict(w: World, h: nat, x: nat, mint: nat)
    requires CanPresent(w, h, x, mint)
  {
    exists more: seq<Event>, v: World, k: nat ::
      IsCleanRun(Step(w, Present(h, Some(x), mint)), more, v) && Evicts(v, k)
  }

  /**
   * After any clean run, presenting an id can lead to an eviction if and only if the id is one the
   * server has minted for a start it has not registered yet.
   */
  lemma PresentingSafeIff(run: seq<Event>, w: World, h: nat, x: nat, mint: nat)
    requires IsCleanRun(IDLE, run, w) && CanPresent(w, h, x, mint)
    ensures CanEvict(w, h, x, mint) <==> exists g: nat :: Minting(w, g, x)
  {
    RunsKeep(IDLE, run, w);
    if g: nat :| Minting(w, g, x) {
      var more, v := EarlyPresentEvicts(w, g, h, x, mint);
      assert CanEvict(w, h, x, mint);
    } else {
      forall more: seq<Event>, v: World, k: nat | IsCleanRun(Step(w, Present(h, Some(x), mint)), more, v)
        ensures !Evicts(v, k)
      {
        LateIsSafe(w, h, x, mint, more, v, k);
      }
    }
  }

  // ---- A real early presentation -------------------------------------------

  /** Two sockets of one user connect, and the first starts a session under a minted id. */
  lemma MintingRun(user: User) returns (run: seq<Event>, w: World)
    ensures IsCleanRun(IDLE, run, w)
    ensures w == World(UNLOCKED, map[], [Session(0, user, To(0), false, false, false)],
      [Handler(user, None, false, false, Starting(0)), Handler(user, None, false, false, Reading)])
  {
    run, w := [], IDLE;
    RunThen(IDLE, run, w, Connect(user));
    run, w := run + [Connect(user)], Step(w, Connect(user));
    RunThen(IDLE, run, w, Connect(user));
    run, w := run + [Connect(user)], Step(w, Connect(user));
    RunThen(IDLE, run, w, Present(0, None, 0));
    run, w := run + [Present(0, None, 0)], Step(w, Present(0, None, 0));
  }

  /** The second can present that id before it is registered, and then one start can evict the other's session. */
  lemma EarlyPresentHappens(user: User)
    ensures exists run, w, mint ::
      && IsCleanRun(IDLE, run, w) && (forall h :: 0 <= h < |w.handlers| ==> w.handlers[h].user == user)
      && CanPresent(w, 1, 0, mint) && Minting(w, 0, 0) && CanEvict(w, 1, 0, mint)
  {
    var run, w := MintingRun(user);
    assert CanPresent(w, 1, 0, 1) && Minting(w, 0, 0);
    PresentingSafeIff(run, w, 1, 0, 1);
  }
}
