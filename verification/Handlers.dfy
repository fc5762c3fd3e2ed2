/**
 * The handlers of the live socket endpoint (api/src/api/main.py) and the registry they share
 * (api/src/api/registry.py): each handler moves from one await to the next, resuming, displacing,
 * starting, ending and detaching sessions. Replies of the stores and of clients are inputs.
 */
module Handlers {
  import opened Prelude
  import opened StartLocks

  /** Who a socket was opened by: a member of a household. A recording belongs to whoever started it. */
  datatype User = User(household: nat, member: nat)

  /** Where a session's frames go: a handler's socket, or the buffer. */
  datatype Sink = To(h: nat) | Buffer

  /** `doomed` is unregistered for a revoke or a shutdown that is about to close it. */
  datatype Session = Session(id: nat, user: User, send: Sink, detached: bool, doomed: bool, closed: bool)

  /** What a handler waits for; only the first is outside `session.start`. */
  datatype Doing =
    | Reading | AwaitingLock | ClosingFor(target: nat) | Rebinding | Checking | ClosingOld
    | Starting(session: nat) | Announcing(session: nat)

  datatype Handler = Handler(user: User, session: Option<nat>, displaced: bool, over: bool, doing: Doing)

  datatype World = World(locks: Locks, active: map<nat, nat>, sessions: seq<Session>, handlers: seq<Handler>)

  const IDLE := World(UNLOCKED, map[], [], [])

  /** How the owner check of a cold resume ends. */
  datatype Answer = Failed | Honored | Refused

  // ---- Pieces of steps -----------------------------------------------------

  /** `unregister`: only if the id is still this session's. */
  function Unregistered(active: map<nat, nat>, id: nat, s: nat): map<nat, nat> {
    if id in active && active[id] == s then active - {id} else active
  }

  /** `unregister` and then `close`, which marks the session closed before its first await. */
  function Close(w: World, s: nat): World
    requires s < |w.sessions|
  {
    w.(active := Unregistered(w.active, w.sessions[s].id, s),
       sessions := w.sessions[s := w.sessions[s].(closed := true)])
  }

  function Unlock(w: World, h: nat): World {
    if CanExit(w.locks, h) then w.(locks := Exit(w.locks, h)) else w
  }

  function Put(w: World, h: nat, r: Handler): World
    requires h < |w.handlers|
  {
    w.(handlers := w.handlers[h := r])
  }

  function Do(w: World, h: nat, doing: Doing): World
    requires h < |w.handlers|
  {
    Put(w, h, w.handlers[h].(doing := doing))
  }

  /** A new session of handler h: under the id it holds the lock of, else under the fresh one. */
  function Open(w: World, h: nat, mint: nat): World
    requires h < |w.handlers|
  {
    var id := if h in w.locks.claims then w.locks.claims[h].id else mint;
    var session := Session(id, w.handlers[h].user, To(h), false, false, false);
    Do(w.(sessions := w.sessions + [session]), h, Starting(|w.sessions|))
  }

  /** The start goes on: a session this handler has is closed first. */
  function StartOn(w: World, h: nat, mint: nat): World
    requires h < |w.handlers| && (w.handlers[h].session.Some? ==> w.handlers[h].session.value < |w.sessions|)
  {
    if w.handlers[h].session.Some? then Do(Close(w, w.handlers[h].session.value), h, ClosingOld) else Open(w, h, mint)
  }

  /** No session to resume warm: an id that is live under another owner is not honored. */
  function Cold(w: World, h: nat, mint: nat): World
    requires h < |w.handlers| && h in w.locks.claims
    requires w.handlers[h].session.Some? ==> w.handlers[h].session.value < |w.sessions|
  {
    if w.locks.claims[h].id in w.active then StartOn(Unlock(w, h), h, mint) else Do(w, h, Checking)
  }

  /** Taking over session s: the socket it is bound to is displaced, then `rebind` begins to send. */
  function Takeover(w: World, h: nat, s: nat): World
    requires h < |w.handlers| && s < |w.sessions|
  {
    var before := w.sessions[s].send;
    var u := w.(sessions := w.sessions[s := w.sessions[s].(send := Buffer, detached := false)]);
    var v := if before.To? && before.h < |w.handlers| && before.h != h && !w.handlers[before.h].over
             then Put(u, before.h, w.handlers[before.h].(displaced := true)) else u;
    Put(v, h, v.handlers[h].(session := Some(s), doing := Rebinding))
  }

  // ---- Steps ---------------------------------------------------------------

  datatype Event =
    | Connect(user: User) | Present(h: nat, id: Option<nat>, mint: nat) | Locked(h: nat, mint: nat)
    | OldClosed(h: nat, mint: nat) | Rebound(h: nat) | Checked(h: nat, answer: Answer, mint: nat)
    | Announce(h: nat) | StartFails(h: nat) | RecordingGone(h: nat, mint: nat) | Register(h: nat)
    | End(h: nat) | Leave(h: nat) | GraceClose(s: nat) | Doom(s: nat) | CloseDoomed(s: nat)

  /** A minted id is no session's, and nobody has presented it and waits. */
  ghost predicate Fresh(w: World, mint: nat) {
    && (forall s :: 0 <= s < |w.sessions| ==> w.sessions[s].id != mint)
    && (forall h :: h in w.locks.claims ==> w.locks.claims[h].id != mint)
  }

  predicate Active(w: World, h: nat) { h < |w.handlers| && !w.handlers[h].over }

  /** The handler's own record names sessions that exist, and its claim is there while it must be. */
  predicate WellFormed(w: World, h: nat) {
    && Active(w, h)
    && (w.handlers[h].session.Some? ==> w.handlers[h].session.value < |w.sessions|)
    && (match w.handlers[h].doing
        case Reading => h !in w.locks.claims
        case AwaitingLock => h in w.locks.claims
        case ClosingFor(t) => h in w.locks.claims && t < |w.sessions|
        case Rebinding => h in w.locks.claims && w.handlers[h].session.Some?
        case Checking => h in w.locks.claims
        case ClosingOld => true
        case Starting(s) => s < |w.sessions|
        case Announcing(s) => s < |w.sessions|)
  }

  ghost predicate Enabled(w: World, e: Event) {
    match e
    case Connect(_) => true
    case Present(h, _, mint) =>
      && WellFormed(w, h) && w.handlers[h].doing.Reading? && !w.handlers[h].displaced
      && Fresh(w, mint) && e.id != Some(mint)
    case Locked(h, mint) =>
      && WellFormed(w, h) && w.handlers[h].doing.AwaitingLock? && !w.handlers[h].displaced && CanAcquire(w.locks, h)
      && (forall id :: id in w.active ==> w.active[id] < |w.sessions|) && Fresh(w, mint)
    case OldClosed(h, mint) =>
      WellFormed(w, h) && (w.handlers[h].doing.ClosingFor? || w.handlers[h].doing.ClosingOld?) && Fresh(w, mint)
    case Rebound(h) => WellFormed(w, h) && w.handlers[h].doing.Rebinding?
    case Checked(h, _, mint) =>
      && WellFormed(w, h) && w.handlers[h].doing.Checking?
      && (e.answer.Failed? || !w.handlers[h].displaced) && Fresh(w, mint)
    case Announce(h) => WellFormed(w, h) && w.handlers[h].doing.Starting?
    case StartFails(h) => WellFormed(w, h) && (w.handlers[h].doing.Starting? || w.handlers[h].doing.Announcing?)
    case RecordingGone(h, mint) =>
      WellFormed(w, h) && w.handlers[h].doing.Starting? && h in w.locks.claims && Fresh(w, mint)
    case Register(h) => WellFormed(w, h) && w.handlers[h].doing.Announcing?
    case End(h) =>
      WellFormed(w, h) && w.handlers[h].doing.Reading? && !w.handlers[h].displaced && w.handlers[h].session.Some?
    case Leave(h) => WellFormed(w, h)
    case GraceClose(s) => s < |w.sessions| && w.sessions[s].detached && !w.sessions[s].closed
    case Doom(s) => s < |w.sessions| && w.sessions[s].id in w.active && w.active[w.sessions[s].id] == s
    case CloseDoomed(s) => s < |w.sessions| && w.sessions[s].doomed
  }

  /** A session is its starter's: household and member both match. */
  predicate SameUser(s: Session, r: Handler) {
    s.user.household == r.user.household && s.user.member == r.user.member
  }

  /** The lock acquired: warm resume of a session found live under this user, else a cold start. */
  function LockedStep(w: World, h: nat, mint: nat): World
    requires Enabled(w, Locked(h, mint))
  {
    var u := w.(locks := Acquire(w.locks, h));
    var id, session := w.locks.claims[h].id, w.handlers[h].session;
    if !(id in w.active && SameUser(w.sessions[w.active[id]], w.handlers[h])) then Cold(u, h, mint)
    else if session.Some? && session.value != w.active[id] then Do(Close(u, session.value), h, ClosingFor(w.active[id]))
    else if !w.sessions[w.active[id]].closed then Takeover(u, h, w.active[id])
    else Cold(u, h, mint)
  }

  /** The old session's close has returned: the resume or start that waited for it goes on. */
  function OldClosedStep(w: World, h: nat, mint: nat): World
    requires Enabled(w, OldClosed(h, mint))
  {
    match w.handlers[h].doing
    case ClosingFor(target) =>
      var u := Put(w, h, w.handlers[h].(session := None));
      if !w.sessions[target].closed then Takeover(u, h, target) else Cold(u, h, mint)
    case _ => Open(w, h, mint)
  }

  /** The replay is sent: the socket is bound, unless the session was closed meanwhile. */
  function ReboundStep(w: World, h: nat): World
    requires Enabled(w, Rebound(h))
  {
    var s := w.handlers[h].session.value;
    var u := Unlock(w.(sessions := w.sessions[s := w.sessions[s].(send := To(h))]), h);
    if w.sessions[s].closed then Put(u, h, w.handlers[h].(session := None, over := true, doing := Reading))
    else Do(u, h, Reading)
  }

  function CheckedStep(w: World, h: nat, answer: Answer, mint: nat): World
    requires Enabled(w, Checked(h, answer, mint))
  {
    match answer
    case Failed => Do(Unlock(w, h), h, Reading)
    case Honored => StartOn(w, h, mint)
    case Refused => StartOn(Unlock(w, h), h, mint)
  }

  /** The handler's end: locks go, a start is abandoned, and a session it still owns is detached. */
  function LeaveStep(w: World, h: nat): World
    requires WellFormed(w, h)
  {
    var r := w.handlers[h];
    var u := Unlock(w, h);
    if r.doing.Starting? || r.doing.Announcing? then
      Put(Close(u, r.doing.session), h, r.(over := true, doing := Reading))
    else if r.session.Some? then
      var s := r.session.value;
      var mine := !w.sessions[s].closed && (r.doing.Rebinding? || w.sessions[s].send == To(h));
      var v := if mine then u.(sessions := w.sessions[s := w.sessions[s].(send := Buffer, detached := true)]) else u;
      Put(v, h, r.(over := true, doing := Reading))
    else Put(u, h, r.(over := true, doing := Reading))
  }

  function RegisterStep(w: World, h: nat): World
    requires Enabled(w, Register(h))
  {
    var s := w.handlers[h].doing.session;
    var u := Unlock(w.(active := w.active[w.sessions[s].id := s]), h);
    Put(u, h, w.handlers[h].(session := Some(s), doing := Reading))
  }

  function Step(w: World, e: Event): World
    requires Enabled(w, e)
  {
    match e
    case Connect(user) => w.(handlers := w.handlers + [Handler(user, None, false, false, Reading)])
    case Present(h, id, mint) =>
      if id.None? then StartOn(w, h, mint) else Do(w.(locks := Enter(w.locks, h, id.value)), h, AwaitingLock)
    case Locked(h, mint) => LockedStep(w, h, mint)
    case OldClosed(h, mint) => OldClosedStep(w, h, mint)
    case Rebound(h) => ReboundStep(w, h)
    case Checked(h, answer, mint) => CheckedStep(w, h, answer, mint)
    case Announce(h) => Do(w, h, Announcing(w.handlers[h].doing.session))
    case StartFails(h) => Do(Unlock(Close(w, w.handlers[h].doing.session), h), h, Reading)
    case RecordingGone(h, mint) => Open(Unlock(Close(w, w.handlers[h].doing.session), h), h, mint)
    case Register(h) => RegisterStep(w, h)
    case End(h) => Put(Close(w, w.handlers[h].session.value), h, w.handlers[h].(session := None))
    case Leave(h) => LeaveStep(w, h)
    case GraceClose(s) => Close(w, s)
    case Doom(s) => w.(active := Unregistered(w.active, w.sessions[s].id, s),
                       sessions := w.sessions[s := w.sessions[s].(doomed := true)])
    case CloseDoomed(s) => Close(w, s)
  }

  /** Handler g is starting a session under an id the server minted, not yet registered. */
  predicate Minting(w: World, g: nat, id: nat) {
    && WellFormed(w, g) && (w.handlers[g].doing.Starting? || w.handlers[g].doing.Announcing?)
    && g !in w.locks.claims && w.sessions[w.handlers[g].doing.session].id == id
  }

  /** Nobody presents a minted id before the session under it is registered. */
  ghost predicate Clean(w: World, e: Event) {
    e.Present? && e.id.Some? ==> forall g :: 0 <= g < |w.handlers| ==> !Minting(w, g, e.id.value)
  }

  ghost predicate IsCleanRun(w: World, run: seq<Event>, end: World)
    decreases |run|
  {
    if |run| == 0 then end == w
    else Enabled(w, run[0]) && Clean(w, run[0]) && IsCleanRun(Step(w, run[0]), run[1..], end)
  }

  // ---- What every clean run keeps ------------------------------------------

  predicate StartsSession(r: Handler, s: nat) {
    (r.doing.Starting? || r.doing.Announcing?) && r.doing.session == s
  }

  predicate Registered(active: map<nat, nat>, id: nat, s: nat) { id in active && active[id] == s }

  ghost predicate ActiveOk(w: World, id: nat)
    requires id in w.active
  {
    w.active[id] < |w.sessions| && w.sessions[w.active[id]].id == id && !w.sessions[w.active[id]].closed
  }

  predicate BeingStarted(w: World, s: nat)
    requires s < |w.sessions|
  {
    w.sessions[s].send.To? && w.sessions[s].send.h < |w.handlers| && StartsSession(w.handlers[w.sessions[s].send.h], s)
  }

  /** A live session is registered, being started, or about to be closed; whoever it sends to is its one owner. */
  ghost predicate SessionOk(w: World, s: nat)
    requires s < |w.sessions|
  {
    var x := w.sessions[s];
    !x.closed ==>
      && (x.doomed || Registered(w.active, x.id, s) || BeingStarted(w, s))
      && (x.detached ==> x.send.Buffer?)
      && (x.send.To? ==> x.send.h < |w.handlers| && Owns(w.handlers[x.send.h], s))
  }

  /** An undisplaced handler whose session s is, or which is starting it. */
  predicate Owns(r: Handler, s: nat) {
    !r.over && !r.displaced && (r.session == Some(s) || StartsSession(r, s))
  }

  /** The session a handler rebinds is its claim's, held back in the buffer; any other it has sends to it. */
  ghost predicate HoldsOk(w: World, h: nat, s: nat)
    requires h < |w.handlers| && s < |w.sessions|
  {
    var r := w.handlers[h];
    if r.doing.Rebinding? then
      && h in w.locks.claims && w.sessions[s].id == w.locks.claims[h].id
      && (!w.sessions[s].closed ==> !r.displaced && w.sessions[s].send.Buffer? && !w.sessions[s].detached)
    else
      && (!r.displaced && !r.over && !w.sessions[s].closed ==> w.sessions[s].send == To(h))
      && (r.doing.ClosingFor? || r.doing.ClosingOld? || r.doing.Starting? || r.doing.Announcing? ==>
           w.sessions[s].closed)
  }

  /** A session being started is live, sends to its starter, and nobody has its id registered. */
  ghost predicate StartOk(w: World, h: nat, s: nat)
    requires h < |w.handlers| && s < |w.sessions|
  {
    && !w.sessions[s].closed && !w.sessions[s].detached && !w.sessions[s].doomed && w.sessions[s].send == To(h)
    && w.sessions[s].id !in w.active && !w.handlers[h].displaced
    && (h in w.locks.claims ==> w.locks.claims[h].id == w.sessions[s].id)
    && (h !in w.locks.claims ==> forall g :: g in w.locks.claims ==> w.locks.claims[g].id != w.sessions[s].id)
  }

  ghost predicate HandlerOk(w: World, h: nat)
    requires h < |w.handlers|
  {
    var r := w.handlers[h];
    && (r.over ==> r.doing.Reading? && h !in w.locks.claims)
    && (!r.over ==> WellFormed(w, h))
    && (r.session.Some? ==> r.session.value < |w.sessions| && HoldsOk(w, h, r.session.value))
    && (h in w.locks.claims ==> (w.locks.claims[h].held <==> !r.doing.AwaitingLock?))
    && (r.doing.ClosingFor? ==>
         w.sessions[r.doing.target].id == w.locks.claims[h].id && !BeingStarted(w, r.doing.target))
    && (r.doing.ClosingFor? || r.doing.ClosingOld? ==> r.session.Some? && !r.displaced)
    && (h in w.locks.claims && (r.doing.Checking? || r.doing.ClosingOld?) ==> w.locks.claims[h].id !in w.active)
    && (r.doing.Starting? || r.doing.Announcing? ==> StartOk(w, h, r.doing.session))
  }

  /** Two sessions being started have different ids. */
  ghost predicate StartsApart(w: World) {
    forall s, t :: 0 <= s < t < |w.sessions| && w.sessions[s].id == w.sessions[t].id ==>
      !(BeingStarted(w, s) && BeingStarted(w, t))
  }

  ghost predicate Inv(w: World) {
    && StartLocks.Inv(w.locks)
    && (forall h :: h in w.locks.claims ==> h < |w.handlers|)
    && (forall id :: id in w.active ==> ActiveOk(w, id))
    && (forall s :: 0 <= s < |w.sessions| ==> SessionOk(w, s))
    && (forall h :: 0 <= h < |w.handlers| ==> HandlerOk(w, h))
    && StartsApart(w)
  }
}
