/** The registry and the handlers' steps as the code takes them, on the tables they update in place. */
module HandlerServer {
  import opened Prelude
  import opened StartLocks
  import opened Handlers

  /** `_active` and `_start_locks`, with the lock objects and who is inside each `start_lock` block. */
  class Registry {
    var active: map<nat, nat>
    var owner: seq<Option<nat>>
    var entries: map<nat, Entry>
    var claims: map<nat, Claim>

    ghost function Table(): Locks
      reads this
    {
      Locks(owner, entries, claims)
    }

    constructor ()
      ensures active == map[] && Table() == UNLOCKED
    {
      active, owner, entries, claims := map[], [], map[], map[];
    }

    method Register(id: nat, s: nat)
      modifies this`active
      ensures active == old(active)[id := s]
    {
      active := active[id := s];
    }

    /** Only if the entry is still this session's. */
    method Unregister(id: nat, s: nat)
      modifies this`active
      ensures active == Unregistered(old(active), id, s)
      ensures forall other :: other in old(active) && old(active)[other] != s ==>
                other in active && active[other] == old(active)[other]
    {
      var current := Get(id);
      if current == Some(s) {
        active := active - {id};
      }
    }

    method Get(id: nat) returns (s: Option<nat>)
      ensures s == if id in active then Some(active[id]) else None
    {
      if id in active {
        return Some(active[id]);
      }
      return None;
    }

    /** `start_lock`, up to the wait. */
    method EnterStartLock(h: nat, id: nat)
      modifies this`owner, this`entries, this`claims
      ensures Table() == Enter(old(Table()), h, id)
    {
      var lock, holders := |owner|, 0;
      if id in entries {
        lock, holders := entries[id].lock, entries[id].holders;
      } else {
        owner := owner + [None];
      }
      entries := entries[id := Entry(lock, holders + 1)];
      claims := claims[h := Claim(id, lock, false)];
    }

    method AcquireStartLock(h: nat)
      requires CanAcquire(Table(), h)
      modifies this`owner, this`claims
      ensures Table() == Acquire(old(Table()), h)
    {
      var c := claims[h];
      owner := owner[c.lock := Some(h)];
      claims := claims[h := c.(held := true)];
    }

    /** The end of `start_lock`, on every way out of it. */
    method ExitStartLock(h: nat)
      requires CanExit(Table(), h)
      modifies this`owner, this`entries, this`claims
      ensures Table() == Exit(old(Table()), h)
    {
      var c := claims[h];
      if c.held {
        owner := owner[c.lock := None];
      }
      var entry := entries[c.id];
      if entry.holders == 1 {
        entries := entries - {c.id};
      } else {
        entries := entries[c.id := Entry(entry.lock, entry.holders - 1)];
      }
      claims := claims - {h};
    }
  }

  /** The handlers and sessions around one registry. */
  class Server {
    const registry: Registry
    var sessions: seq<Session>
    var handlers: seq<Handler>

    ghost function View(): World
      reads this, registry
    {
      World(registry.Table(), registry.active, sessions, handlers)
    }

    constructor ()
      ensures View() == IDLE && fresh(registry)
    {
      registry := new Registry();
      sessions, handlers := [], [];
    }

    method CloseSession(s: nat)
      requires s < |sessions|
      modifies this, registry
      ensures View() == Close(old(View()), s)
    {
      registry.Unregister(sessions[s].id, s);
      sessions := sessions[s := sessions[s].(closed := true)];
    }

    method ReleaseLock(h: nat)
      modifies registry
      ensures View() == Unlock(old(View()), h)
    {
      if h in registry.claims {
        var c := registry.claims[h];
        if c.lock < |registry.owner| && c.id in registry.entries && registry.entries[c.id].holders > 0 {
          registry.ExitStartLock(h);
        }
      }
    }

    /** A session found live under this owner is taken over: the socket bound to it loses it first. */
    method TakeOver(h: nat, s: nat)
      requires h < |handlers| && s < |sessions|
      modifies this
      ensures View() == Takeover(old(View()), h, s)
    {
      var previous := sessions[s].send;
      if previous.To? && previous.h != h && previous.h < |handlers| && !handlers[previous.h].over {
        handlers := handlers[previous.h := handlers[previous.h].(displaced := true)];
      }
      sessions := sessions[s := sessions[s].(send := Buffer, detached := false)];
      handlers := handlers[h := handlers[h].(session := Some(s), doing := Rebinding)];
    }

    /** The start after the id is settled: the handler's old session is closed, or the new one begins. */
    method GoOnStarting(h: nat, mint: nat)
      requires h < |handlers| && (handlers[h].session.Some? ==> handlers[h].session.value < |sessions|)
      modifies this, registry
      ensures View() == StartOn(old(View()), h, mint)
    {
      if handlers[h].session.Some? {
        CloseSession(handlers[h].session.value);
        handlers := handlers[h := handlers[h].(doing := ClosingOld)];
        return;
      }
      var id := mint;
      if h in registry.claims {
        id := registry.claims[h].id;
      }
      var s := |sessions|;
      sessions := sessions + [Session(id, handlers[h].user, To(h), false, false, false)];
      handlers := handlers[h := handlers[h].(doing := Starting(s))];
    }

    /** The id is not to be resumed warm: one that is live is not honored, any other's owner is checked. */
    method GoCold(h: nat, mint: nat)
      requires h < |handlers| && (handlers[h].session.Some? ==> handlers[h].session.value < |sessions|)
      requires h in registry.claims
      modifies this, registry
      ensures View() == Cold(old(View()), h, mint)
    {
      var live := registry.Get(registry.claims[h].id);
      if live.Some? {
        ReleaseLock(h);
        GoOnStarting(h, mint);
      } else {
        handlers := handlers[h := handlers[h].(doing := Checking)];
      }
    }

    /** `session.start` once its lock is acquired, up to its next await. */
    method StartLocked(h: nat, mint: nat)
      requires Enabled(View(), Locked(h, mint))
      modifies this, registry
      ensures View() == LockedStep(old(View()), h, mint)
    {
      registry.AcquireStartLock(h);
      var resumable := registry.Get(registry.claims[h].id);
      var mine := false;
      if resumable.Some? {
        var user := sessions[resumable.value].user;
        mine := user.household == handlers[h].user.household && user.member == handlers[h].user.member;
      }
      if mine {
        var session := handlers[h].session;
        if session.Some? && session != resumable {
          CloseSession(session.value);
          handlers := handlers[h := handlers[h].(doing := ClosingFor(resumable.value))];
          return;
        }
        if !sessions[resumable.value].closed {
          TakeOver(h, resumable.value);
          return;
        }
      }
      GoCold(h, mint);
    }

    /** The rest of `session.start` after the old session's close. */
    method OldSessionClosed(h: nat, mint: nat)
      requires Enabled(View(), OldClosed(h, mint))
      modifies this, registry
      ensures View() == OldClosedStep(old(View()), h, mint)
    {
      if handlers[h].doing.ClosingFor? {
        var resumable := handlers[h].doing.target;
        handlers := handlers[h := handlers[h].(session := None)];
        if !sessions[resumable].closed {
          TakeOver(h, resumable);
        } else {
          GoCold(h, mint);
        }
        return;
      }
      var id := mint;
      if h in registry.claims {
        id := registry.claims[h].id;
      }
      var s := |sessions|;
      sessions := sessions + [Session(id, handlers[h].user, To(h), false, false, false)];
      handlers := handlers[h := handlers[h].(doing := Starting(s))];
    }

    /** A start that came through is registered, and its lock let go. */
    method RegisterStarted(h: nat)
      requires Enabled(View(), Handlers.Register(h))
      modifies this, registry
      ensures View() == RegisterStep(old(View()), h)
    {
      var s := handlers[h].doing.session;
      registry.Register(sessions[s].id, s);
      ReleaseLock(h);
      handlers := handlers[h := handlers[h].(session := Some(s), doing := Reading)];
    }

    /** The handler's `finally`: the session is detached only if this socket is still the one bound. */
    method HandlerEnds(h: nat)
      requires WellFormed(View(), h)
      modifies this, registry
      ensures View() == LeaveStep(old(View()), h)
    {
      var r := handlers[h];
      ReleaseLock(h);
      if r.doing.Starting? || r.doing.Announcing? {
        CloseSession(r.doing.session);
      } else if r.session.Some? {
        var s := r.session.value;
        if r.doing.Rebinding? && !sessions[s].closed {
          sessions := sessions[s := sessions[s].(send := To(h))];
        }
        if !sessions[s].closed && sessions[s].send == To(h) {
          sessions := sessions[s := sessions[s].(send := Buffer, detached := true)];
        }
      }
      handlers := handlers[h := r.(over := true, doing := Reading)];
    }
  }
}
