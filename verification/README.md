# Live sessions and caption alignment, verified

A Dafny model of the parts of the repository where order, ownership and optimality are easy to get
wrong, and proofs of what they keep:

- the **live session** (`api/src/api/session.py`, `main.py`, `registry.py`), an asyncio state machine.
  Every await is a step boundary; replies of stores, models, recognizers and clients, their failures
  and the clock are inputs. For each machine there is a module of step functions with an invariant,
  a module proving it over every run, and a class whose methods update the fields as the code does
  and are proved equal to the steps;
- the **caption replay** (`scripts/caption_ocr/caption_replay.py`): candidate pruning, the weighted
  increasing chain over a Fenwick tree, and the greedy fill, with full optimality and completeness;
- the **cue replay** (`scripts/cue_eval/replay.py`), proved to start exactly the attempts of the one run
  of the session's event-driven scheduler in which everything happens when it is due;
- three supporting algorithms: OCR line grouping, the caption-box finder and greedy line pairing.

| machine | steps | proofs | as the code updates it |
|---|---|---|---|
| sittings of one recording | `Sittings` | `SittingsInvariants`, `SittingsHandOff`, `SittingsStranding` | `RecordingLife` |
| their audio | `SittingAudio` | `SittingAudioOrder`, `SittingAudioRetains`, `SittingAudioLate` | `SittingAudioSteps` |
| cue attempts | `CueGate`, `CueTimeline` | `CueInvariants`, `CueReasons`, `CueStarts`, `CueSession`, `CueReplay` | `CueScheduler`, `CueReplay.Replay` |
| socket handlers and registry | `StartLocks`, `Handlers` | `HandlerInvariants`, `HandlerOwnership`, `HandlerUsers`, `HandlerCloses`, `HandlerRace` | `HandlerServer` |
| resume frames | `ResumeFrames` | `ResumeDelivery`, `ResumeLosses` | `ResumeSession` |
| translation runs | `Translation` | `TranslationOrder`, `TranslationWanted` | `TranslationRuns` |
| song runs | `Music` | `MusicRuns`, `MusicClock` | `MusicScanner` |
| transcript writes | `Writes` | `Writes` | `WriteQueue` |
| age of a final | `FinalAge` | `FinalAge` | `FinalAge.Arrivals` |
| caption alignment | `CaptionMatches`, `CaptionChain`, `CaptionCompare` | the same | `Fenwick` and the methods there |
| OCR lines, caption box, line pairs | `OcrLines`, `GlyphRuns`, `CaptionBox`, `PairLines` | the same, `CaptionBoxGrowth` | the methods there |

## Where the code does less than its comments promise

Each of these is proved with a concrete run or an exact condition; the model follows the code.

- **A finalize without a token** (`SittingsInvariants.ClosesUnderLaterIff`): when a start's `create()`
  raises after it wrote the row, that sitting's `finish()` carries no `opened_at`, and closes the row
  under a later sitting that is recording into it. With a token this never happens.
- **A `finish()` that fails for good** (`SittingsStranding.StrandsIff`, `SittingsStranding.StrandedIff`):
  with the other sittings settled, a `finish()` leaves the row live with nothing deferred exactly when it
  raises an error a retry cannot help before doing its work. Over whole runs with every `create()`
  answered, a row is stranded exactly when that is how the last sitting to open it ended, with no earlier
  call of it having got through. `SittingsStranding.HardFinishStrands` is such a run.
- **Audio that comes late** (`SittingAudioLate.ResumeKeepsOrderIff`): audio reaching a sitting after its
  first retain took the buffer is stored by its last retain, which the next sitting's first retain
  does not wait for. Resuming while such audio is unstored can put it out of order, and only then.
  `SittingAudioLate.LateHappens` reaches such a moment.
- **A minted id presented early** (`HandlerRace.PresentingSafeIff`): `session.ready` reaches the client
  before the session is registered, and a start under a minted id holds no lock. A second socket that
  presents the id in between starts a second session under it, and one registration evicts the other.
  No other presentation can lead to an eviction. `HandlerRace.EarlyPresentHappens` reaches the race.
- **The hold after a takeover** (`MusicRuns.SilenceEndsIff`, `MusicRuns.ReplacementLosesClock`): opening a
  run over a live one ends that one first, which clears the time of the last match just recorded. Until
  the new track is matched again, no silence ends its run; only its end timer, if its end is known, or
  another takeover does. `MusicRuns.ClocklessRun` leads to one.
- **The all-pairs scan** (`CaptionMatches.PrunedIsAllPairs`): two rows without words are a perfect match by
  ratio but share no word, so the index skips them; for a reference row the two searches agree exactly when
  it has words or every stored row has.
- **Frames pushed out** (`ResumeDelivery.ResumedSocketGetsPromise`): a resumed socket gets all it should
  exactly when the cap on remembered frames has pushed none of the window's out and the detached buffer
  none since. Otherwise it misses exactly those (`ResumeDelivery.BoundSocketHas`), and both losses happen
  (`ResumeLosses.CapForgets`, `ResumeLosses.BufferOverflows`).

## Model

| member | source | states |
|---|---|---|
| SittingsInvariants.RunsKeep | api/src/api/session.py:2120-2179 | The row invariant holds after every interleaving of starts, closes, finalizes, deferred retries and store outcomes: later sittings hold later tokens, and a live row always has a sitting that still answers for it. |
| SittingsInvariants.TokenNeverClosesLater | api/src/api/session.py:2137-2166 | A finish() made with an `opened_at` token never turns the row ready while a later sitting that reopened it is live. |
| SittingsInvariants.ClosesUnderLaterIff | api/src/api/session.py:2137-2157 | A finish() closes the row under a later live sitting if and only if it goes out without a token (its create raised or never ran) and the call does its work. |
| SittingsInvariants.TokenlessClosesLater | api/src/api/session.py:2139-2157 | The tokenless case happens: a run is built in which a create() that wrote and then raised is finished over a later live sitting. |
| SittingsStranding.StrandsIff | api/src/api/session.py:2147-2161 | With every other sitting's finalize settled and none of them failed, a finish() leaves the row live with nothing deferred if and only if it fails with a non-retryable error without having done its work. |
| SittingsStranding.StrandedIff | api/src/api/session.py:167-195 | At the end of any run with every create answered, all sittings torn down and nothing deferred, the row is live if and only if the finish() of the sitting that opened it last failed for good and no call of it ever did its work. |
| SittingsStranding.QuietLiveIff | api/src/api/session.py:167-195 | Whatever the creates did, a row is live with nothing left to do if and only if a sitting answering for it failed for good and no finish() has readied it since it was last opened. |
| SittingsStranding.QuietMeansReady | api/src/api/session.py:167-195 | So in a run in which no finish() failed for good without doing its work, every sitting torn down and nothing deferred means the row is ready (or gone). |
| SittingsStranding.HardFinishStrands | api/src/api/session.py:2158-2161 | The stranded row happens: a first sitting that starts and closes cleanly, and a finish() that fails for good. |
| SittingsHandOff.WalkIff | api/src/api/session.py:2170-2179 | The walk along the successors answers yes if and only if there is a path of successors that ends in a sitting which opened the row and has not closed. |
| SittingsHandOff.FinalizeDecides | api/src/api/session.py:2120-2137 | After any run, a teardown's finalize is nothing for a start that never reached the store, deferred while writes are held back, handed off if and only if a later sitting on the chain is recording, and a call of finish() with this sitting's own token otherwise and only then. |
| SittingsHandOff.RetryDecides | api/src/api/session.py:167-195 | A deferred finalize tried again decides the same way, and stays deferred until it is handed off or finished. |
| SittingsHandOff.FinishDecides | api/src/api/session.py:2147-2168 | After any run, finish() readies the row if and only if it did its work and its token opened the row, or it had none; answered, it ends the sitting or hands it to the later one; a retryable error defers it and any other gives it up. |
| SittingsHandOff.BeginLinks | api/src/api/session.py:712-724 | Once a sitting begins, every deferred or closing one has it for its successor, and with it on its chain. |
| SittingsHandOff.NoFinishUnderNewcomer | api/src/api/session.py:2130-2137 | Over every run: while a sitting is recording, none that was unfinished when it began comes to call finish(); with its writes stored it is handed off. |
| SittingsHandOff.CreateDecides | api/src/api/session.py:645-677 | The first sitting's create() makes the row and every later one only reopens what is there, live and under a token newer than any before. |
| SittingsHandOff.DeletedForGood | api/src/api/session.py:645-677 | A recording deleted once its first create() is behind stays deleted, whatever its sittings still do. |
| RecordingLife.Recording.BeginSitting | api/src/api/session.py:712-724 | A new sitting links itself as successor of every deferred sitting of the recording and of the one still closing, and changes nothing else. |
| RecordingLife.Recording.ResumedLiveNow | api/src/api/session.py:2170-2179 | The loop ends, and answers yes if and only if some sitting along the successors opened the row and has not closed. |
| RecordingLife.Recording.FinalizeSitting | api/src/api/session.py:2039-2064 | The end of a teardown: nothing for a start that never reached the store, deferred when writes are held, handed off to a later live sitting, else finish() with this sitting's own token. |
| RecordingLife.Recording.RunFinish | api/src/api/session.py:2137-2168 | The row and the sitting after finish(): readied only by a matching token or none, handed off when a later sitting has the row, deferred again on a retryable error, given up on any other. |
| SittingAudioOrder.RunsKeep | api/src/api/session.py:2181-2253 | The audio invariant holds over every clean interleaving of sittings, retains and failures. |
| SittingAudioOrder.RecordingInOrder | api/src/api/session.py:2181-2253 | What is stored is always, in sitting order and once each, the part stored of every sitting; once all are torn down it is all their audio, byte for byte. |
| SittingAudioLate.LateBreaks | api/src/api/session.py:2237-2250 | From any reachable state in which audio came after the first retain took the buffer, resuming has a clean continuation that stores it out of order. |
| SittingAudioLate.ResumeKeepsOrderIff | api/src/api/session.py:2190-2198 | Resuming a closing sitting keeps the recording in order in every clean continuation if and only if no sitting still holds audio that came after its first retain took the buffer. |
| SittingAudioLate.LateHappens | api/src/api/session.py:2190-2198 | Such a moment is reached: a clean run of one sitting ends with audio arriving while its first retain is storing what it took, and a resume then can put the recording out of order. |
| SittingAudioRetains.NewcomerWaits | api/src/api/session.py:696-726 | A sitting resumed mid-teardown waits for the one still tearing down, only failed starts between them; one that waits for nobody finds all audio stored. |
| SittingAudioRetains.GivesUpIff | api/src/api/session.py:2181-2198 | Over clean runs a first retain is given up if and only if the one it waits for failed to store its audio; otherwise it takes all that is buffered, with nothing unstored before it. |
| SittingAudioRetains.LastTakes | api/src/api/session.py:2015-2037 | The last retain starts once the teardown it waits for is over, with nothing unstored before it, and takes all that is left. |
| SittingAudioRetains.PutExtends | api/src/api/session.py:2234-2250 | A put that succeeds stores exactly what its retain took behind everything stored by then, and just that leaves the buffer; one that fails stores and drops nothing. |
| SittingAudioRetains.FirstReports | api/src/api/session.py:2200-2222 | A first retain reports success if and only if its last call succeeds, and failure as soon as one fails. |
| SittingAudioRetains.CleanIffStored | api/src/api/session.py:2181-2253 | What clean runs assume of the end of a teardown is exactly that its last retain's read and put succeed; the put then leaves nothing unstored. |
| SittingAudioSteps.Recording.RetainAfterPrior | api/src/api/session.py:2181-2198 | The first retain goes ahead only if the sitting it resumed stored its own; else it gives up and leaves the audio buffered. |
| SittingAudioSteps.Recording.PutAndTrim | api/src/api/session.py:2234-2250 | The put stores what was there plus the buffer taken, and only what was written leaves the buffer. |
| CueInvariants.StepKeeps | api/src/api/session.py:1186-1257 | Every event (a turn, a call ending, a cue shown, a floor lapsing, a gate changing) keeps the scheduler's invariant. |
| CueInvariants.RunsKeep | api/src/api/session.py:1186-1257 | So does every run of events with a nondecreasing clock. |
| CueInvariants.SpacingOfEveryRun | api/src/api/session.py:1206-1231 | In every run attempt starts are at least the attempt floor apart and shown cues at least the minimum interval apart. |
| CueInvariants.PendingOfEveryRun | api/src/api/session.py:1206-1257 | In every reachable state a turn is held exactly while the floor timer is armed, one floor after the last attempt; a turn is missed only while a call is in flight past the floor. |
| CueInvariants.NoTurnStranded | api/src/api/session.py:1186-1257 | Every turn the gate looks at is in the window of the first attempt after it, or held behind an armed timer, or missed behind the call in flight, or was passed over; each attempt's window is the newest turns before it. |
| CueReasons.PassedOverForReason | api/src/api/session.py:1206-1231 | A turn passed over for the minimum interval came within it after a cue that had been shown; one passed over for a run came while a translation or song run was live; one dropped at the end came after the close. |
| CueStarts.AttemptStartsIff | api/src/api/session.py:1186-1257 | In every run an event starts an attempt if and only if it is a turn, a lapsed floor or a call's end with a turn waiting, no call is in flight, the session is open, no translation or song run is live, and both minimum gaps have passed; and then right away. |
| CueStarts.NoAttemptInARun | api/src/api/session.py:1201-1210 | No attempt ever starts while a translation or song run is live, nor after the close. |
| CueStarts.StampIsOfATurn | api/src/api/session.py:1424-1444 | Every attempt carries the end time of a turn that it was the first to see. |
| CueStarts.WindowIsNewest | api/src/api/session.py:1186-1200 | The window is the newest turns with text, up to its size, oldest first. |
| CueStarts.EveryFinalIsATurn | api/src/api/session.py:1186-1200 | The turns the gate has looked at are the run's finals up to the close, in order. |
| CueScheduler.Scheduler.ConsiderCue | api/src/api/session.py:1186-1231 | The fields after a finalized turn, as the step that `CueStarts.AttemptStartsIff` and `CueInvariants.RunsKeep` are about: held, missed, passed over or attempted. |
| CueScheduler.Scheduler.CatchUp | api/src/api/session.py:1424-1444 | The catch-up starts one call on the newest missed turn unless a gate holds it. |
| CueReplay.CatchUpFollows | scripts/cue_eval/replay.py:447-451 | A catch-up of the replay is the live session's call ending with a missed turn. |
| CueReplay.LapseInFlight | scripts/cue_eval/replay.py:452-456 | A floor lapse of the replay during a call is the live timer's. |
| CueReplay.LapseIdle | scripts/cue_eval/replay.py:452-458 | So is one with no call in flight. |
| CueReplay.SettleStepFollows | scripts/cue_eval/replay.py:437-458 | One turn of `settle` keeps the replay in step with the live scheduler run to the same time, and lowers the measure twice held plus missed. |
| CueReplay.Replay.Attempt | scripts/cue_eval/replay.py:325-424 | `attempt` updates exactly the clocks and pending finals the simulation step says. |
| CueReplay.Replay.Settle | scripts/cue_eval/replay.py:437-458 | `settle` terminates and brings the replay to where the live scheduler is once everything due has happened. |
| CueReplay.ReplayConversation | scripts/cue_eval/replay.py:460-481 | For finals with nondecreasing end times and any latencies and outcomes, the replay starts exactly the attempts (times, stamps and windows) of every run of the live scheduler over them in which everything happens when it is due, and there is such a run. |
| CueSession.SessionIsTimely | scripts/cue_eval/replay.py:437-481 | The session the replay is held against is a run of the live scheduler: the transcript's turns finalize at their ends, the floor timer fires when it lapses, every call ends after its latency and shows the cue it comes to, and nothing is left to happen. |
| CueSession.OnlySession | scripts/cue_eval/replay.py:437-481 | There is only one such session: any run on time over the same turns, latencies and outcomes ends in the same state. |
| StartLocks.MutualExclusion | api/src/api/registry.py:52-66 | Two handlers inside the start lock of one id are the same handler. |
| StartLocks.EntryIffClaimed | api/src/api/registry.py:63-72 | The lock table has an entry for an id exactly while some handler holds its lock or waits for it. |
| StartLocks.WaitersShareLock | api/src/api/registry.py:63-66 | Everyone who wants an id waits on one lock object, so a waiter gets it exactly when it is free. |
| StartLocks.EnterKeeps | api/src/api/registry.py:63-64 | Coming in keeps the table exact: holder counts, one lock object per id. |
| StartLocks.ExitKeeps | api/src/api/registry.py:67-72 | Leaving, with the lock or given up waiting, keeps the table exact. |
| HandlerServer.Registry.Unregister | api/src/api/registry.py:30-34 | Only this session's own entry goes; every other session keeps its entry. |
| HandlerServer.Server.TakeOver | api/src/api/main.py:757-770 | Taking a session over displaces the handler whose socket it was bound to before the rebind begins. |
| HandlerServer.Server.StartLocked | api/src/api/main.py:729-799 | `session.start` from the lock to its next await, as the step that `HandlerUsers.WarmResumeIff`, `ForeignStart` and `ColdOtherwise` are about: warm resume, closing the old session first, or a cold start. |
| HandlerServer.Server.OldSessionClosed | api/src/api/main.py:745-770 | After the old session's close the resume goes on only if its target is still open. |
| HandlerServer.Server.HandlerEnds | api/src/api/main.py:939-950 | The handler's `finally`: the session is detached only if this socket is still the one bound. |
| HandlerUsers.SessionsStayWithTheirUser | api/src/api/main.py:740-745 | Over every run, every session a handler has, is starting, or closes another one to resume was started by that handler's user, household and member alike, and frames go to a socket of the session's user. |
| HandlerUsers.OthersUntouched | api/src/api/main.py:729-799 | A step of one user's handler leaves the handlers and sessions of every other user as they were. |
| HandlerUsers.ForeignStart | api/src/api/main.py:740-799 | A start that presents an id live under another user's session changes no handler but its own and no session but its own old one, leaves the other's registered, and goes on under an id the server makes. |
| HandlerUsers.WarmResumeIff | api/src/api/main.py:740-770 | With the id live under the same user, a start takes that session over if and only if it is open and the handler has no other; then the session is buffered and the socket it sent to displaced. |
| HandlerUsers.ColdOtherwise | api/src/api/main.py:771-799 | With no such session a start resumes none, and asks the store for the id's owner if and only if the id is not live. |
| HandlerUsers.OpenedUnder | api/src/api/main.py:771-853 | A session opened is the handler's user's; it has the presented id if and only if the store honored it with the lock still held, and an id the server makes otherwise. |
| HandlerUsers.StartsGoOn | api/src/api/main.py:795-853 | A start that resumes nothing opens a session, once the handler's old one has been closed. |
| HandlerUsers.ResumesAfterClose | api/src/api/main.py:745-770 | The old session closed, the resume takes its target over if and only if that is still open. |
| HandlerCloses.ClosesIff | api/src/api/main.py:690-950 | Over every clean run a live session is closed by exactly these steps: its end, its grace, a revoke, its failed or abandoned start, or its handler starting another; and is then registered no more. |
| HandlerCloses.NeverAbandoned | api/src/api/main.py:627-651 | A live session is never left to itself: it sends to a running handler that has it, or its grace runs, or exactly one undisplaced handler is rebinding it. |
| HandlerOwnership.StepKeeps | api/src/api/main.py:690-950 | Every step of any handler keeps the ownership invariant, as long as no minted id is presented before its session is registered. |
| HandlerOwnership.RunsKeep | api/src/api/main.py:690-950 | So does every interleaving. |
| HandlerOwnership.RegisterNeverEvicts | api/src/api/main.py:899-902 | When a start registers its id, no session has it. |
| HandlerOwnership.StaysRegistered | api/src/api/registry.py:30-34 | A registered session keeps its entry until the step that closes it or takes it off to be closed: no other start, end or stale grace close removes it. |
| HandlerOwnership.OneUndisplacedHandler | api/src/api/main.py:627-651 | Of two handlers holding a live session one is displaced; the session sends to the other (or to the buffer while that one rebinds it), the displaced one leaves it alone when it ends, and the other detaches it. |
| HandlerOwnership.OnlyItsOwnerDetaches | api/src/api/main.py:939-945 | A handler whose end detaches a session was undisplaced and had it. |
| HandlerOwnership.SocketIsOwners | api/src/api/main.py:757-770 | The socket a live session sends to belongs to a running, undisplaced handler that has it or is starting it. |
| HandlerOwnership.OneStartPerId | api/src/api/registry.py:52-72 | Over every run, whoever presents which id, at most one handler is past the start lock of an id, and the id then has its entry. |
| HandlerRace.EarlyPresentEvicts | api/src/api/main.py:853-902 | If an id the server minted is presented before its session is registered, some continuation has one start evict the other's session. |
| HandlerRace.PresentingSafeIff | api/src/api/main.py:853-902 | After any clean run, presenting an id can lead to an eviction if and only if that id is one minted for a start not registered yet. |
| HandlerRace.EarlyPresentHappens | api/src/api/main.py:853-902 | The race is reached: two sockets connect, one starts a session under a minted id, and the other can present that id before it is registered. |
| ResumeDelivery.RunsKeep | api/src/api/session.py:775-817 | The delivery invariant holds after every interleaving of frames, drops and resumes. |
| ResumeDelivery.ResumedSocketGetsPromise | api/src/api/session.py:775-817 | A socket bound by a resume with replay has been sent exactly the window's remembered frames and then everything since, in production order and once each, if and only if the cap on remembered frames had pushed none of the window's out and the buffer none since. |
| ResumeDelivery.BoundSocketHas | api/src/api/session.py:775-817 | Any resumed socket has been sent the replay and then everything since except exactly the frames pushed out of the detached buffer. |
| ResumeLosses.CapForgets | api/src/api/session.py:846-849 | More finals in the window than are remembered: a run in which the resumed socket misses the first of them. |
| ResumeLosses.BufferOverflows | api/src/api/session.py:775-780 | More frames while detached than the buffer holds: a run in which the resumed socket misses the first of them. |
| ResumeDelivery.NothingOvertakes | api/src/api/session.py:800-817 | At every moment of catching up the new socket has been sent a prefix of the replay followed by everything since but what the buffer pushed out; once bound, all of it. |
| ResumeDelivery.PromisedSplits | api/src/api/session.py:800-817 | The promised frames are the window's remembered ones, then all from the give-up on. |
| ResumeSession.Connection.Send | api/src/api/session.py:775-780 | A frame is remembered before it is sent, and goes to the socket or to the capped buffer, whose first frame it may push out. |
| ResumeSession.Connection.BufferSend | api/src/api/session.py:775-780 | The detached buffer keeps the most recent frames up to its cap. |
| ResumeSession.Connection.DetachNow | api/src/api/session.py:851-862 | A session already detached keeps the time it was given up. |
| ResumeSession.Connection.RebindTo | api/src/api/session.py:800-817 | The rebind's loops send the replay, then drain the buffer until it stays empty, whatever is produced meanwhile, and end bound. |
| ResumeSession.RebindDelivers | api/src/api/session.py:800-817 | A whole rebind from any reachable state, whatever is produced meanwhile, leaves the new socket holding the replay and then everything since but what the buffer pushed out, and nothing else. |
| TranslationOrder.RunsKeep | api/src/api/session.py:994-1111 | The queue and worker invariant holds after every interleaving of turns, partials, silence, worker steps, resumes and teardown. |
| TranslationOrder.QueueKeepsOrder | api/src/api/session.py:994-1111 | Every queue history has each final at most once and in transcript order, each run's translations together, a held opener right before the turn that confirmed it, no run opened by a turn that reads English or is undecided unconfirmed, and inherited turns in the run's language; a run under way has its hold armed and nothing held back. |
| TranslationOrder.RunsAreClosed | api/src/api/session.py:1098-1111 | Behind a run's last translation comes its done marker once the run is over, and nothing yet while it is under way. |
| TranslationOrder.WorkerDeliversInOrder | api/src/api/session.py:1113-1137 | The worker has sent, in queue order, the frames of the jobs it finished, and holds at most the next. |
| TranslationOrder.SentAscends | api/src/api/session.py:1113-1137 | Translations reach the client in transcript order, each once. |
| TranslationWanted.WantedAreQueued | api/src/api/session.py:994-1058 | Over every run the turns queued for translation are exactly those that should be, in order: another language's turns while a run is live, with the source fixed or read as such, turns of no language during a run, and an undecided turn together with the one that seconds it; and a run is under way exactly while another language is being spoken. |
| TranslationWanted.EnglishEnds | api/src/api/session.py:1019-1026 | An English turn always ends the run, as silence does: exactly one done marker is queued, and nothing is held back. |
| TranslationWanted.WantedKeepsTheRun | api/src/api/session.py:1042-1096 | A turn that should be translated is the last job queued, in its own language or the run's, and keeps the run going with its hold armed. |
| TranslationWanted.MarkersQueued | api/src/api/session.py:833-842 | A resumed socket gets a done marker again exactly when no run is under way; the teardown closes the run and the queue. |
| TranslationRuns.Runs.ConsiderTurn | api/src/api/session.py:994-1057 | The fields and the queue after a finalized turn, as the step that `TranslationWanted.WantedAreQueued` and `TranslationOrder.RunsKeep` are about, with the opener's tests in the code's order. |
| MusicRuns.RunsKeep | api/src/api/session.py:1509-1823 | The song-run invariant holds after every interleaving of scans, lyric lookups, the end timer and resumes. |
| MusicRuns.FramesBracketed | api/src/api/session.py:1645-1823 | Each run opens with a song under an id never used before, has songs and syncs only while live, and ends with its done; a repeated done only names the newest run while none is live. |
| MusicRuns.OneDonePerRun | api/src/api/session.py:1793-1823 | No run has two ends. |
| MusicRuns.NewestIsGreatest | api/src/api/session.py:1665-1669 | The newest run's id is later than every song's before it. |
| MusicRuns.ReplacedOnSecondSighting | api/src/api/session.py:1547-1572 | A scan replaces the locked track if and only if it sees the takeover candidate, and then the track recognized just before was that one too, under the same run, misses aside. |
| MusicRuns.SilenceEndsIff | api/src/api/session.py:1539-1544 | Scans that recognize nothing can end a run if and only if it has a time of last match to count from. |
| MusicRuns.ReplacementLosesClock | api/src/api/session.py:1569-1572 | A run that replaced another opens without that time, and no silence ends it until its track is matched again; one that replaced none can be ended by silence. |
| MusicRuns.ClocklessRun | api/src/api/session.py:1569-1572 | Such a run comes about: a track sighted twice in a row replaces the one before, and no silence ends it. |
| MusicClock.ClockIsNewestSighting | api/src/api/session.py:1547-1556 | A live song's time of last match is that of the newest sighting of its track, and it has one once the track was sighted under the run: each match of the locked track renews it. |
| MusicClock.FramesAreOwed | api/src/api/session.py:1509-1823 | Each event of a run sends exactly what the client is owed: a song, a sync, a done, or nothing. |
| MusicClock.TrackOpens | api/src/api/session.py:1569-1572 | A track recognized with no song live always has its lyrics looked up to open a run. |
| MusicClock.LyricsOpen | api/src/api/session.py:1645-1702 | The run opened is the track's, with an end timer exactly if its end is known and its lyrics pending exactly if the lookup failed. |
| MusicClock.RetrySettles | api/src/api/session.py:1704-1791 | A retry settles the live run's lyrics unless it failed too, and changes no other run. |
| MusicScanner.Scanner.OnRecognized | api/src/api/session.py:1509-1572 | One scan from the recognizer's answer to its next await. |
| MusicScanner.Scanner.OnLyricsRetried | api/src/api/session.py:1704-1791 | A lyric retry sends no frame for a run that ended meanwhile. |
| Writes.WritesInOrder | api/src/api/session.py:2066-2118 | Over every interleaving what was submitted is what left the queue and then what waits in it, in order and once each; every write taken off is the write that ran, despite appends and a competing flush. |
| Writes.HeldLosesNothing | api/src/api/session.py:2093-2104 | A held attempt was of the first queued write and takes nothing off. |
| Writes.WaitingMeansHeld | api/src/api/session.py:2066-2118 | With writes waiting, a flush still has to go or the last attempt of all was held; a writer that is over was held. |
| Writes.EachEndTakesOne | api/src/api/session.py:2092-2117 | Over every interleaving each attempt that was not held takes exactly the oldest write left off the queue, stored or dropped as the attempt ended, and nothing else takes one. |
| Writes.FlushGoesOn | api/src/api/session.py:2092-2117 | After an attempt its flush stops exactly if it was held or the queue is empty, and goes on with the next write otherwise; the backlog counts as held exactly if the last attempt was. |
| WriteQueue.Backlog.FlushWrites | api/src/api/session.py:2083-2118 | The flush loop, with any outcomes and any writes queued meanwhile: it takes off, in order, one write for every call that is not held, each stored or dropped as its call ended; it stops at a held call, whose write is left at the head, or with the queue empty, and returns true exactly then. |
| FinalAge.LeftAgeIff | api/src/api/session.py:985-992 | Searching what is left of the arrivals never dates a final older than the whole history does, and dates it the same if and only if the push searched for is left or arrived with the oldest that is. |
| FinalAge.Arrivals.FinalAge | api/src/api/session.py:979-992 | The age found while pruning is the whole history's for finals in timeline order below the cap, and exactly what is pruned. |
| Fenwick.LowBitBetween | scripts/caption_ocr/caption_replay.py:283-291 | Between an index and its next step up no other index has it in its range: what makes the tree's ranges nest. |
| Fenwick.BestBelow | scripts/caption_ocr/caption_replay.py:280-285 | `best_below` returns the naive maximum of everything put below j. |
| Fenwick.Put | scripts/caption_ocr/caption_replay.py:287-291 | `put` keeps every tree entry the maximum over its range, with the new node. |
| CaptionMatches.CommonBound | scripts/caption_ocr/caption_replay.py:244-250 | A common subsequence is no longer than the multiset intersection of the words, nor than either side. |
| CaptionMatches.PruningLosesNothing | scripts/caption_ocr/caption_replay.py:244-254 | A row skipped by the index or by either bound could not have reached the ratio, rows with words given. |
| CaptionMatches.PrunedIsAllPairs | scripts/caption_ocr/caption_replay.py:226-255 | The pruned search reports exactly what an all-pairs scan would, for a reference row, if and only if the row has words or every stored row has. |
| CaptionMatches.BuildIndex | scripts/caption_ocr/caption_replay.py:231-234 | The index maps each word to exactly the rows holding it. |
| CaptionMatches.Matches | scripts/caption_ocr/caption_replay.py:226-255 | `_matches` lists, per reference row, each alike row found once. |
| CaptionChain.ChainBound | scripts/caption_ocr/caption_replay.py:293-302 | No in-order chain of alike pairs is worth more than the best processed pair. |
| CaptionChain.Forward | scripts/caption_ocr/caption_replay.py:293-302 | The sweep gives each alike pair the greatest value of a chain ending there, and its back pointer. |
| CaptionChain.TraceBack | scripts/caption_ocr/caption_replay.py:302-308 | The back-pointer chain is increasing, of alike pairs, and worth exactly the counted value. |
| CaptionChain.BestInOrder | scripts/caption_ocr/caption_replay.py:273-307 | The first phase returns an in-order one-to-one pairing of alike rows whose (pairs, same-speaker pairs) no other in-order pairing beats. |
| CaptionChain.BestMeans | scripts/caption_ocr/caption_replay.py:273-307 | In counts: no in-order pairing of alike rows has more pairs than the first phase's, and none with as many keeps the speaker in more of them. |
| CaptionCompare.FillLeftovers | scripts/caption_ocr/caption_replay.py:307-319 | The second phase keeps the chain, stays one-to-one and alike-only, and pairs each leftover with its best unused row in the window or leaves it with none unused there. |
| CaptionCompare.WindowIff | scripts/caption_ocr/caption_replay.py:307-319 | A row is in a leftover's window exactly when it is at most the window before the row of the nearest paired neighbour above, and behind that of the one below. |
| CaptionCompare.MatchingFits | scripts/caption_ocr/caption_replay.py:320-326 | A one-to-one pairing has no more pairs than either side has rows. |
| CaptionCompare.Compare | scripts/caption_ocr/caption_replay.py:258-326 | Matched plus missing is the reference, matched plus extra is the rows, no count is negative, a change of speaker is counted exactly where a matched pair's speakers differ, and the pairing behind them is the optimal chain greedily filled. |
| OcrLines.SplitAtGaps | ocr/server.py:156-173 | A row split at its wide gaps, run by run. |
| OcrLines.SplitCuts | ocr/server.py:156-173 | The split only cuts: its runs end to end are the row. |
| OcrLines.RunsApart | ocr/server.py:168-172 | Segments of different output lines of a row are further apart than the gap, whichever lines they are in. |
| OcrLines.SameLineIff | ocr/server.py:156-173 | Two segments of a row end in the same line exactly when a chain of gaps no wider than allowed connects them. |
| OcrLines.RunOfHolds | ocr/server.py:156-173 | The run numbers used in that statement are the runs of the output. |
| OcrLines.GroupRows | ocr/server.py:129-137 | Top to bottom, each segment joins the first row it overlaps by more than half, or opens one. |
| OcrLines.JoinsIff | ocr/server.py:129-137 | A segment joins a row if and only if they share a stretch of height longer than half the lower of the two, the row's height reaching from its highest edge to its lowest. |
| OcrLines.EachJoinsFirst | ocr/server.py:129-137 | Each segment in turn goes to the end of the first row it shares height with so, or opens a new last row. |
| OcrLines.LineIff | ocr/server.py:156-173 | Two segments of a row of the image end in the same line if and only if a chain of gaps connects them, none wider than the given share of the row's own height. |
| OcrLines.EverySegmentOnce | ocr/server.py:121-153 | Over the whole image every segment is in the output exactly as often as in the input. |
| OcrLines.GroupLines | ocr/server.py:121-153 | The output lines: rows sorted left to right and split; no line is empty and no segment is lost. |
| GlyphRuns.RunsWellFormed | desktop/tenir_capture/caption_box.py:63-71 | Runs are ordered and further apart than the gap, begin and end on a set flag, and hold every set flag. |
| GlyphRuns.ShareRunIff | desktop/tenir_capture/caption_box.py:63-71 | Two set flags share a run exactly when no stretch of more than `gap` unset flags lies between them. |
| CaptionBox.GroupLines | desktop/tenir_capture/caption_box.py:113-132 | Candidates come bottom-up, do not touch, are at most the greatest height and go from line to line; every caption-sized line is in one and no taller line touches any. |
| CaptionBoxGrowth.GroupsIff | desktop/tenir_capture/caption_box.py:113-132 | Of two caption-sized lines with only shorter ones between, the upper is in the lower's candidate if and only if they are close enough and the candidate stays within the greatest height. |
| CaptionBox.CentreSpan | desktop/tenir_capture/caption_box.py:143-149 | The span is the centred, wide enough run of columns through the centre, and there is none otherwise. |
| CaptionBox.GrowUp | desktop/tenir_capture/caption_box.py:169-173 | The loop grows the box to the top that `CaptionBoxGrowth.GrowsUpIff` is about, and never past the greatest height. |
| CaptionBox.GrowDown | desktop/tenir_capture/caption_box.py:174-177 | And over those below. |
| CaptionBoxGrowth.GrowsUpIff | desktop/tenir_capture/caption_box.py:169-173 | The grown box takes in a line above it if and only if that line and every one between are caption lines, each close enough to the next and within the greatest height. |
| CaptionBoxGrowth.GrowsDownIff | desktop/tenir_capture/caption_box.py:174-177 | And a line below it likewise. |
| CaptionBox.Trim | desktop/tenir_capture/caption_box.py:178-185 | Edge rows that are mostly video are trimmed, from the top first, only those, as far as they go, and never below the least height. |
| CaptionBox.CaptionBoxFits | desktop/tenir_capture/caption_box.py:195-200 | Any box lies in the image, contains the centre column, is at least the least width wide, and no taller than the greatest height and its padding. |
| CaptionBox.FindCaptionBox | desktop/tenir_capture/caption_box.py:90-201 | The box is that of the lowest candidate that passes every test, and there is none only if no candidate does; before padding it is between the least and the greatest height, centred, wide enough and on box fill. |
| PairLines.StableIsFull | scripts/caption_ocr/caption_score.py:64-78 | A pairing that leaves no blocking pair has as many pairs as the smaller side has lines. |
| PairLines.StableUnique | scripts/caption_ocr/caption_score.py:64-78 | There is only one pairing without a blocking pair. |
| PairLines.PairLines | scripts/caption_ocr/caption_score.py:64-78 | Greedy pairing is one-to-one, of size min(truth, read), and leaves no blocking pair: any pair not made shares a line with one that ranks higher. |

The other methods of the classes are proved equal to their step functions in the same way.

## Left out

- Transport, JSON, authentication, logging, metrics, settings and the model, recognizer and lyric services: plumbing or libraries; their replies, failures and latencies are inputs.
- The stores' own code is not part of this model: `create` and `reopen` hand out fresh tokens, `finish` closes only on a matching token, and any call may raise, also after having done its work; except that an audio `put` is atomic: one that raises has stored nothing.
- Wall clocks are integers in milliseconds, supplied with each step; scores, ratios and shares are exact integers or reals, so `0.8` and the other bars are compared without rounding.
- The session classes are modelled one machine at a time: a sitting is a record in a sequence rather than a `Session` object that others point to, so aliasing between `Session` objects is not captured.
- `Sittings` and `SittingAudio` start a new sitting only once every earlier one has closed and every earlier start has returned, as the registry and the start lock see to (`HandlerOwnership`); a start cancelled twice, so that its teardown is abandoned, is not modelled.
- Process kill and cancellation at the shutdown deadline end the run; a shutdown's close of every session is the pair of steps that unregisters and then closes one.
- The audio key's link and the deletion of a recording while its audio is being stored are reduced to a step that may fail: which row the key lands on is not modelled.
- SittingAudioOrder.RecordingInOrder: assumes each sitting's audio is stored by the end of its own teardown and none arrives once a later sitting has started, because the code accepts a loss there; audio that arrives late is measured exactly by `SittingAudioLate.ResumeKeepsOrderIff`.
- SittingAudioOrder.RunsKeep: over the same runs as RecordingInOrder.
- CueReplay.ReplayConversation: takes the shipped gate with realtime spacing; the `sentence` gate, `time_to_cue`, the segment index of a cue and the outcome counters are left out, and events due at the instant of a final come before it, as the replay has them.
- CueTimeline.Live: drops blank finals on the live side, as the replay does on its own; the session's gate would look at one, but the transcriber emits none.
- What makes a cue worth showing (retrieval, deduplication, fact check) is one given outcome per attempt.
- HandlerOwnership.StepKeeps: assumes no client presents a minted id before its session is registered; `HandlerRace.PresentingSafeIff` shows the assumption is needed and enough.
- HandlerOwnership.RunsKeep: over the same runs as StepKeeps, since an eviction breaks it.
- HandlerOwnership.RegisterNeverEvicts: over the same runs as StepKeeps, since an eviction breaks it.
- HandlerOwnership.StaysRegistered: over the same runs as StepKeeps, since an eviction breaks it.
- HandlerOwnership.OneUndisplacedHandler: over the same runs as StepKeeps, since an eviction breaks it.
- HandlerOwnership.OnlyItsOwnerDetaches: over the same runs as StepKeeps, since an eviction breaks it.
- HandlerOwnership.SocketIsOwners: over the same runs as StepKeeps, since an eviction breaks it.
- Who owns a stored recording is looked up in the store on a cold resume, so that answer is an input; who owns a live session is modelled (`HandlerUsers`).
- HandlerCloses.ClosesIff: over the same runs as StepKeeps, since an eviction breaks it.
- HandlerCloses.NeverAbandoned: over the same runs as StepKeeps, since an eviction breaks it.
- SittingAudioRetains.PutExtends: over the same runs as RecordingInOrder, as are the other results of that module; what those runs assume is measured by `SittingAudioRetains.CleanIffStored` and `SittingAudioLate.ResumeKeepsOrderIff`.
- A taken-over socket's close frame and the drain of its last frames, the frames sent between the rebind and the end of `session.start`, and the account checks (which end in closing the session) are not steps of their own.
- ResumeDelivery.ResumedSocketGetsPromise: assumes a strictly increasing clock and sends that succeed; the song re-anchor and `session.ready` frames of a resume are not among its frames (the former is in `Music`).
- `detect_lang`, the frequency lean and `_same_text` are inputs of a turn; how long the silence hold waits is not modelled, only that it is armed and may expire.
- Music offsets, lyric lines and the scan's adaptive interval are left out: the frames are modelled by their run.
- A store call that applies its write and then raises is retried as one more attempt; that the retry is idempotent is the store's business.
- `SequenceMatcher` is any count of some common subsequence of the two rows' words.
- `j & -j` is a recursive low-bit function on integers.
- The rounding of OCR boxes and scores and the joining of texts into a line are left out: a line is its segments.
- The pixel work of the caption-box finder up to the glyph mask, and `with_speaker_line` behind it, are left out: the mask and the dark share of each row are inputs.
- Accuracy between two lines (Levenshtein distance over normalized text) is an input of `PairLines`; ties between equal accuracies are broken as Python's tuple order does.
- Voiceprints, the UI, native bridges, judge and report scripts, and the small reducers would only add easy members.
