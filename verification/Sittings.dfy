/**
 * The life of one recording over every sitting that records into it (api/src/api/session.py):
 * starts that reopen its row, teardowns that overlap the next sitting, finalizes an outage defers,
 * and the store row they share. Each step is what one sitting does between two awaits, or what a
 * store thread does; store failures are inputs.
 */
module Sittings {
  import opened Prelude

  /** The conversation row: whether it is still live, and the token of whoever opened it last. */
  datatype Row = Row(live: bool, openedAt: nat)

  /** The create() / reopen() thread of a start. A raise may come after the row was written. */
  datatype Create = NotRun | Running | Opened(token: nat) | Gone | Raised

  /** Finishing and Retrying hold the token finish() was called with: a first try, a deferred retry. */
  datatype Phase = Starting | Live | Closing | Finishing(token: Option<nat>) | Torn | Retrying(token: Option<nat>)

  /**
   * One sitting: its start, its row, and how its finalize went. `failed` says that its finish()
   * failed for good without doing its work; `readied` is the opening of the row its finish() last
   * readied, whether or not that call then raised.
   */
  datatype Sitting = Sitting(
    phase: Phase, rowOpened: bool, create: Create, startFailed: bool, successor: Option<nat>,
    handedOff: bool, finished: bool, failed: bool, readied: Option<nat>)
  {
    predicate Closed() { !phase.Starting? && !phase.Live? }

    /** The token finish() is called with: none when create raised, or never ran. */
    function Token(): Option<nat> { if create.Opened? then Some(create.token) else None }
  }

  const NEWCOMER := Sitting(Starting, false, NotRun, false, None, false, false, false, None)

  /** The store row, the sittings in start order, and the module's `_closing` and `_unfinalized`. */
  datatype World = World(
    row: Option<Row>, nextToken: nat, sittings: seq<Sitting>, closing: Option<nat>, unfinalized: seq<nat>)

  const EMPTY := World(None, 0, [], None, [])

  /** How a store call ends: it may also raise after having done its work. */
  datatype Outcome = Ok | Retryable(applied: bool) | Hard(applied: bool)

  datatype Event =
    | Begin | OpenRow(i: nat) | CreateRuns(i: nat, outcome: Outcome) | StartDone(i: nat) | StartFails(i: nat)
    | Close(i: nat) | Finalize(i: nat, writesStored: bool) | FinishRuns(i: nat, outcome: Outcome)
    | Retry(i: nat, writesStored: bool) | TeardownPopped | Deleted

  function Put(w: World, i: nat, s: Sitting): World
    requires i < |w.sittings|
  {
    w.(sittings := w.sittings[i := s])
  }

  // ---- What each step does -------------------------------------------------

  function Link(sittings: seq<Sitting>, from: seq<nat>, to: nat): (r: seq<Sitting>)
    ensures |r| == |sittings|
  {
    seq(|sittings|, k requires 0 <= k < |sittings| =>
      if k in from then sittings[k].(successor := Some(to)) else sittings[k])
  }

  /** A start's first step (`_resume_offset_ms`): link the sittings still finishing to this one. */
  function BeginStep(w: World): World {
    var n := |w.sittings|;
    var linked := Link(w.sittings, w.unfinalized + (if w.closing.Some? then [w.closing.value] else []), n);
    w.(sittings := linked + [NEWCOMER])
  }

  /** The thread creating the row (the first sitting) or only reopening it (every later one). */
  function CreateStep(w: World, i: nat, outcome: Outcome): World
    requires i < |w.sittings|
  {
    var s := w.sittings[i];
    var written := w.(row := Some(Row(true, w.nextToken)), nextToken := w.nextToken + 1);
    if outcome.Ok? then
      if i == 0 || w.row.Some? then Put(written, i, s.(create := Opened(w.nextToken)))
      else Put(w, i, s.(create := Gone))
    else Put(if outcome.applied && (i == 0 || w.row.Some?) then written else w, i, s.(create := Raised))
  }

  /** `_resumed_live`: some sitting along the successor chain has opened the row and not closed. */
  function ResumedLive(sittings: seq<Sitting>, later: Option<nat>): bool
    requires LinksForward(sittings)
    decreases if later.Some? && later.value < |sittings| then |sittings| - later.value else 0
  {
    if later.None? || later.value >= |sittings| then false
    else if sittings[later.value].rowOpened && !sittings[later.value].Closed() then true
    else ResumedLive(sittings, sittings[later.value].successor)
  }

  ghost predicate LinksForward(sittings: seq<Sitting>) {
    forall k :: 0 <= k < |sittings| && sittings[k].successor.Some? ==> k < sittings[k].successor.value < |sittings|
  }

  function Without(s: seq<nat>, i: nat): (r: seq<nat>)
    ensures forall k :: k in r <==> k in s && k != i
  {
    if s == [] then [] else if s[0] == i then Without(s[1..], i) else [s[0]] + Without(s[1..], i)
  }

  /** The end of a teardown (`_persist`), up to the finish() call. */
  function FinalizeStep(w: World, i: nat, writesStored: bool): World
    requires i < |w.sittings| && LinksForward(w.sittings)
  {
    var s := w.sittings[i];
    if s.startFailed && !s.rowOpened then Put(w, i, s.(phase := Torn))
    else if !writesStored then Put(w, i, s.(phase := Torn)).(unfinalized := w.unfinalized + [i])
    else if ResumedLive(w.sittings, s.successor) then Put(w, i, s.(phase := Torn, handedOff := true))
    else Put(w, i, s.(phase := Finishing(s.Token())))
  }

  /** A deferred finalize tried again, up to the finish() call. */
  function RetryStep(w: World, i: nat, writesStored: bool): World
    requires i < |w.sittings| && LinksForward(w.sittings)
  {
    var s := w.sittings[i];
    if !writesStored then w
    else if ResumedLive(w.sittings, s.successor) then
      Put(w, i, s.(handedOff := true)).(unfinalized := Without(w.unfinalized, i))
    else Put(w, i, s.(phase := Retrying(s.Token())))
  }

  /** The row finish() closes: any without a token, with one only the row still carrying it. */
  predicate Matches(row: Option<Row>, token: Option<nat>) {
    row.Some? && (token.None? || token.value == row.value.openedAt)
  }

  /** The store's finish(). */
  function FinishRow(row: Option<Row>, token: Option<nat>): Option<Row> {
    if Matches(row, token) then Some(row.value.(live := false)) else row
  }

  /** What sitting i's finish() call does in the store, when it does its work at all. */
  function FinishCall(w: World, i: nat, applied: bool): World
    requires i < |w.sittings| && (w.sittings[i].phase.Finishing? || w.sittings[i].phase.Retrying?)
  {
    var s := w.sittings[i];
    if applied && Matches(w.row, s.phase.token)
    then Put(w, i, s.(readied := Some(w.row.value.openedAt))).(row := FinishRow(w.row, s.phase.token)) else w
  }

  /** What the sitting makes of the call's outcome. */
  function FinishAnswered(w: World, i: nat, outcome: Outcome): World
    requires i < |w.sittings| && (w.sittings[i].phase.Finishing? || w.sittings[i].phase.Retrying?)
  {
    var s := w.sittings[i];
    var done := w.(unfinalized := Without(w.unfinalized, i));
    match outcome
    case Ok =>
      if s.phase.token.Some? && w.row.Some? && w.row.value.live then Put(done, i, s.(phase := Torn, handedOff := true))
      else Put(done, i, s.(phase := Torn, finished := true))
    case Retryable(_) =>
      var again := if s.phase.Finishing? then w.(unfinalized := w.unfinalized + [i]) else w;
      Put(again, i, s.(phase := Torn))
    case Hard(applied) => Put(done, i, s.(phase := Torn, failed := !applied))
  }

  function FinishStep(w: World, i: nat, outcome: Outcome): World
    requires i < |w.sittings| && (w.sittings[i].phase.Finishing? || w.sittings[i].phase.Retrying?)
  {
    FinishAnswered(FinishCall(w, i, outcome.Ok? || outcome.applied), i, outcome)
  }

  /**
   * When each step can happen. A new sitting starts only once every earlier one has closed and
   * every earlier start() has returned: the registry and the start lock see to that, and a failed
   * start returns only after its own teardown.
   */
  predicate Enabled(w: World, e: Event) {
    match e
    case Begin => forall k :: 0 <= k < |w.sittings| ==>
      && w.sittings[k].Closed()
      && (w.sittings[k].startFailed ==> w.sittings[k].phase.Torn? || w.sittings[k].phase.Retrying?)
    case OpenRow(i) => i < |w.sittings| && w.sittings[i].phase.Starting? && !w.sittings[i].rowOpened
    case CreateRuns(i, _) => i < |w.sittings| && w.sittings[i].create.Running?
    case StartDone(i) => i < |w.sittings| && w.sittings[i].phase.Starting? && w.sittings[i].create.Opened?
    case StartFails(i) => i < |w.sittings| && w.sittings[i].phase.Starting?
    case Close(i) => i < |w.sittings| && w.sittings[i].phase.Live?
    case Finalize(i, _) => i < |w.sittings| && w.sittings[i].phase.Closing? && !w.sittings[i].create.Running?
    case FinishRuns(i, _) => i < |w.sittings| && (w.sittings[i].phase.Finishing? || w.sittings[i].phase.Retrying?)
    case Retry(i, _) => i < |w.sittings| && i in w.unfinalized && w.sittings[i].phase.Torn?
    case TeardownPopped => w.closing.Some? && w.closing.value < |w.sittings| &&
      (w.sittings[w.closing.value].phase.Torn? || w.sittings[w.closing.value].phase.Retrying?)
    case Deleted => true
  }

  function Step(w: World, e: Event): World
    requires Enabled(w, e) && LinksForward(w.sittings)
  {
    match e
    case Begin => BeginStep(w)
    case OpenRow(i) => Put(w, i, w.sittings[i].(rowOpened := true, create := Running))
    case CreateRuns(i, outcome) => CreateStep(w, i, outcome)
    case StartDone(i) => Put(w, i, w.sittings[i].(phase := Live))
    case StartFails(i) => Put(w, i, w.sittings[i].(phase := Closing, startFailed := true))
    case Close(i) => Put(w, i, w.sittings[i].(phase := Closing)).(closing := Some(i))
    case Finalize(i, writesStored) => FinalizeStep(w, i, writesStored)
    case FinishRuns(i, outcome) => FinishStep(w, i, outcome)
    case Retry(i, writesStored) => RetryStep(w, i, writesStored)
    case TeardownPopped => w.(closing := None)
    case Deleted => w.(row := None)
  }

  // ---- What every reachable world satisfies --------------------------------

  /** One sitting's own record hangs together. */
  ghost predicate SittingOk(w: World, i: nat)
    requires i < |w.sittings|
  {
    var s := w.sittings[i];
    && (s.rowOpened <==> !s.create.NotRun?)
    && (s.create.Opened? ==> s.create.token < w.nextToken && (w.row.Some? ==> s.create.token <= w.row.value.openedAt))
    && (s.phase.Live? ==> s.create.Opened?)
    && (s.phase.Closing? && !s.startFailed ==> s.create.Opened?)
    && (s.phase.Finishing? || s.phase.Retrying? ==> s.phase.token == s.Token() && s.rowOpened)
    && (s.phase.Finishing? || s.phase.Retrying? || s.phase.Torn? ==> !s.create.Running?)
    && (s.phase.Retrying? ==> i in w.unfinalized)
    && (i < |w.sittings| - 1 ==> s.Closed() && !s.create.Running?)
    && (i == |w.sittings| - 1 && s.create.Opened? && w.row.Some? ==> w.row.value.openedAt == s.create.token)
  }

  /** Later sittings opened the row later. */
  ghost predicate TokensAscend(sittings: seq<Sitting>) {
    forall i, j :: 0 <= i < j < |sittings| && sittings[i].create.Opened? && sittings[j].create.Opened? ==>
      sittings[i].create.token < sittings[j].create.token
  }

  /** Nothing more will happen to this sitting's finalize. */
  predicate Settled(w: World, i: nat)
    requires i < |w.sittings|
  {
    w.sittings[i].phase.Torn? && i !in w.unfinalized
  }

  /** This sitting will still finish the row, or its finish() failed for good without doing its work. */
  ghost predicate Answers(w: World, i: nat)
    requires i < |w.sittings| && w.row.Some?
  {
    var s := w.sittings[i];
    && s.rowOpened
    && (s.Token().Some? ==> s.Token().value == w.row.value.openedAt)
    && (Settled(w, i) ==> s.failed)
  }

  /** A live row always has a sitting that answers for it. */
  ghost predicate LiveAnswered(w: World) {
    w.row.Some? && w.row.value.live ==> exists i :: 0 <= i < |w.sittings| && Answers(w, i)
  }

  /** A deferred sitting has opened the row and is between finalize attempts, or in one. */
  ghost predicate Deferred(w: World, i: nat) {
    i < |w.sittings| && w.sittings[i].rowOpened && (w.sittings[i].phase.Torn? || w.sittings[i].phase.Retrying?)
  }

  ghost predicate Inv(w: World) {
    && LinksForward(w.sittings)
    && (forall i :: 0 <= i < |w.sittings| ==> SittingOk(w, i))
    && TokensAscend(w.sittings)
    && (w.row.Some? ==> w.row.value.openedAt < w.nextToken)
    && (w.closing.Some? ==> w.closing.value < |w.sittings|)
    && (forall i :: i in w.unfinalized ==> Deferred(w, i))
    && LiveAnswered(w)
  }

  ghost predicate IsRun(w: World, run: seq<Event>, end: World)
    decreases |run|
  {
    if |run| == 0 then end == w
    else LinksForward(w.sittings) && Enabled(w, run[0]) && IsRun(Step(w, run[0]), run[1..], end)
  }
}
