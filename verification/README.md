# Lightrays session engine: verified model

A Dafny model of the game-streaming session engine `lightrays` (a Rust service that starts
compositors, containers and WebRTC pipelines, one set per session), of the input path it feeds,
and of three small algorithms of the backend beside it. `dafny verify dfyconfig.toml` checks
everything.

## How the model is laid out

| file | models | form |
|---|---|---|
| `StreamSession.dfy` | the state behind a `StreamSession`'s mutex and its operations | class with in-place updates, tied to one function per lock-held section |
| `StreamProtocol.dfy` | any number of threads calling those operations | state machine, one step per lock-held section |
| `SessionStore.dfy` | session map, caps, conflicts, launch, stop, shutdown, each running alone | class |
| `LaunchProtocol.dfy` | the same paths interleaved, with resources and gauges | state machine, one step per section, foreign call or counter update |
| `ReconnectGrace.dfy` | overlapping WebSocket handlers, grace timers, the `connected` flag | timed state machine |
| `Gamepad.dfy` | browser gamepad events, delta sender, 20-byte wire format, axis scaling | class, buffer and pure functions |
| `InputBudget.dfy` | the token bucket and the shared input entry point | class |
| `EnvMerge.dfy` | the container environment from application map to container | class and methods |
| `OrphanSweep.dfy` | the sweep that removes containers no session owns | class |
| `Favorites.dfy` | the recursive backfill of monitored items | class over tables |
| `Dedup.dfy` | the self-join DELETEs before unique constraints | class over tables |
| `ScanLock.dfy` | the Redis lock around a library scan | class and state machine |

Every state machine has a total step function: an event that a thread's program counter does not
allow changes nothing. A theorem about `Exec(START, es)` for all `es` is therefore a theorem about
every interleaving. Each lock-held section of a stream session is a function; the class's methods
are proved to have exactly that effect and the interleaving theorems quantify over the same
functions.

## Assumptions

- Session ids, handler ids and lock tokens (random UUIDs in the source) never repeat.
- Stopping a stream, removing a container and unloading a PulseAudio module succeed, except in
  `OrphanSweep`, where which removals work is a parameter.
- What a foreign call decides (a pipeline starts, a container starts, a module loads) is a
  parameter of the step that makes it.
- In `ReconnectGrace` short sections take no time and timers fire punctually; a resize may take a
  session's pipeline down and up at any time.
- The token bucket and the axis scaling are over real numbers.
- The gamepad's packets arrive, in order; the receiver behaves as the comments at
  `lightrays/src/gamepad.rs:12-35` say.
- The statements of a migration run in one transaction (`backend/alembic/env.py:73`).
- Shutdown cleanups, which the source runs one after the other, may overlap in `LaunchProtocol`;
  this only adds interleavings.

## Where the code and its description part

- The sweep's 120 s minimum age is compared after both clocks were cut to whole seconds. An
  in-flight launch is always spared exactly when its create-to-register delay and the sweep's
  snapshot-to-clock gap add up to at most 119 s (`InFlightSparedIffMargin`); 120 s is exact only for
  times on whole seconds (`WholeSecondMargin`).
- The deduplication is described as keeping the oldest row everywhere but in the viewing history
  (`backend/alembic/versions/uniqcon001_add_dedup_unique_constraints.py:7-10`). The statement on
  downloads keeps the newest. The model follows the statement.
- `created_at` may be null in three of the tables. A null timestamp beats nothing and is beaten by
  nothing, so the migration goes through exactly when no such row shares its key with another
  (`UniqueAfterwardsIffNoNullBeside`).
- Deleting a duplicate favorites list deletes its items by cascade: a favorite that was on the
  newer list only is lost (`FavoritesOfSurvivingListsRemain`, `AFavoriteCanBeLost`).
- `stop` is final exactly when nobody is still building the compositor
  (`StoppedIsFinalIffNobodyBuilds`); a build that ends later is installed all the same, and two
  concurrent builds can take the phase away from under a stream. This is about the type's public
  operations: the server calls `start_compositor` in one place (`lightrays/src/server.rs:534`),
  before any other task holds the session, and for a session so used every stop is final
  (`OnceLaunchedStopsAreFinal`).
- A viewer that starts its stream between the teardown of a `stop` and its last section leaves a
  pipeline in a stopped session (`StartInsideStopLeaksPipeline`); this and an install under a live
  pipeline are the only causes (`AgreementKeptIff`).
- With nobody at work on it, the latest resize request can be unserved in five ways and no other: no
  pipeline is running, it landed between the owner's last decision and the drop of its guard, there
  was no signaling channel yet, the rebuild failed, or it was answered Ok because its size was
  already stored while the pipeline that runs was built at another (`LatestRequestServedIff`,
  `ARequestIsUnservedInFiveWays`, and a run for each). The last needs a viewer that starts the
  stream while a rebuild has it down (`PipelineFitsIff`); in the server the failed rebuild then ends
  the session.
- A handler that is let in while a resize has the pipeline down can lose its own pipeline to the
  teardown of the older handler (`OlderHandlerTakesPipeline`); `PipelineStaysUpIff` has the exact
  condition.
- A container whose creation time the runtime does not report is never too young: the sweep removes
  it under an in-flight launch whatever the margin (`PeriodicSweepSparesLaunchesIff`).
- A session that is being used can be stopped by a grace timer or by another handler, after one of
  four sections and only then: a slow handler clears `connected` under its successor, a handler
  connects after a timer has looked or another handler has given up, a handler loses the race for
  the pipeline, or one leaves without grace (`LiveSessionsAreSafeIff`, and a run for each).
- A disconnected session may get less than its grace period: the timer of a handler that left earlier
  is not cancelled by a reconnect and finds the flag down again after a second disconnect
  (`EarlierTimerCutsGraceShort`). Each timer waits its own whole period, and a session gets all of
  its grace exactly if the timer that takes it is that of the last handler to leave
  (`TimersWaitTheWholeGrace`).
- Two launches of one app that overlap both end as sessions (`DuplicatesFromStart`); the exact
  condition is in `UniqueKeptIff`.
- An application variable whose name contains `=` comes back from the `k=v` form under another name
  (`MergeIsOverrideIffPlainKeys`). The comments at `lightrays/src/launch.rs:505-508` and `547-548`
  promise that the application can never change the contract or the compositor;
  `ContractReachesContainerIff` and `OtherCompositorSeenIff` say exactly when it does.
- The comment at `lightrays/src/gamepad.rs:109` speaks of 18-byte messages; every packet has 20 bytes
  (`MessageRoundTrip`).
- With an input rate below one event per second the bucket never holds a whole token and all input
  is dropped (`SpacedEventsPassIffRateAtLeastOne`).

## Model

| member | source | states |
|---|---|---|
| `StreamSession.RoundEven` | `lightrays/src/stream.rs:779-780` | rounding a dimension gives the next even number, and wraps to 0 at the largest 32-bit value |
| `StreamSession.RequestedSize` | `lightrays/src/stream.rs:779-788` | a size is accepted exactly when both raw dimensions are in 63..7680 × 63..4320; an accepted size is even, in range, and at most one pixel above the request on each axis |
| `StreamSession.SessionInner.constructor` | `lightrays/src/stream.rs:249-300` | a new session is in phase Created at the given size with nothing running, requested or installed |
| `StreamSession.SessionInner.StartCompositor` | `lightrays/src/stream.rs:304-343` | run alone, it succeeds exactly from Created when the pipeline comes up, and leaves everything else as it was |
| `StreamSession.SessionInner.StartWebrtc` | `lightrays/src/stream.rs:350-590` | succeeds exactly from CompositorRunning, always has a compositor then, and leaves the bridge's stop flag down; past the phase guard the signaling channel is stored whatever happens, and a failed start leaves nothing running |
| `StreamSession.SessionInner.StopWebrtc` | `lightrays/src/stream.rs:720-760` | resources gone, never Streaming afterwards, stop flag up, any other phase kept |
| `StreamSession.SessionInner.Stop` | `lightrays/src/stream.rs:941-964` | ends in Stopped with nothing running, from whatever state |
| `StreamSession.SessionInner.RecordRequest` | `lightrays/src/stream.rs:796-803` | always overwrites the pending target and elects the caller exactly when nobody owns the rebuild |
| `StreamSession.SessionInner.RecordRequests` | `lightrays/src/stream.rs:796-803` | requests that find an owner amount to the last of them |
| `StreamSession.SessionInner.RebuildAt` | `lightrays/src/stream.rs:876-914` | teardown, new size, rebuild; the installed listener is told exactly of a failure and keeps its value on success; coherence survives |
| `StreamSession.SessionInner.OwnRebuilds` | `lightrays/src/stream.rs:817-938` | the loop and its guard compute the owner's run, for every schedule of arrivals and failures |
| `StreamSession.SessionInner.ChangeResolution` | `lightrays/src/stream.rs:777-938` | a refused size changes nothing; a non-owner only hands its target over; an owner that succeeds leaves the latest target in force within 8 px per axis, at an even size in range; rebuilds never outnumber requests; the listener's sender fires exactly if one is installed and a rebuild failed, and is as it was found otherwise |
| `StreamSession.DecidesByEightPixels` | `lightrays/src/stream.rs:835-866` | a pending size is settled exactly if both axes are within 8 pixels; otherwise it is rebuilt for as asked, if there is a channel |
| `StreamSession.OneTurn` | `lightrays/src/stream.rs:817-937` | one turn of the owner's loop either ends with the latest target served or leaves the owner with the latest target pending and a newer request to pay for another rebuild |
| `StreamSession.OwnerRunServesLatest` | `lightrays/src/stream.rs:817-938` | the same over the whole loop, whatever arrives and whatever fails, with the flag handed back and the listener told exactly of a failed rebuild on every way out |
| `StreamSession.AtomicRunsStayCoherent` | `lightrays/src/stream.rs:304-365` | with atomic public operations, compositor and WebRTC resources match the phase over every run, failed rebuilds included |
| `StreamSession.StoppedIsAbsorbing` | `lightrays/src/stream.rs:941-964` | with atomic public operations a stopped session stays stopped and empty over every run |
| `StreamProtocol.CompositorMatchesPhase` | `lightrays/src/stream.rs:304-365` | in every interleaving the compositor exists exactly in the two middle phases, so a start past its guard has one to bridge |
| `StreamProtocol.AgreementKeptIff` | `lightrays/src/stream.rs:584-760` | a section keeps phase and WebRTC resources in agreement if and only if it is neither a start let through inside another thread's teardown nor a compositor installed under a live pipeline |
| `StreamProtocol.WebrtcMatchesPhase` | `lightrays/src/stream.rs:584-760` | a run keeps them in agreement all along if and only if neither occurs; then resources exist exactly while Streaming, and never in the window between the two sections of a teardown |
| `StreamProtocol.StartInsideStopLeaksPipeline` | `lightrays/src/stream.rs:941-964` | a run for the first cause: a viewer that starts between the teardown and the last section of `stop` leaves a pipeline in a stopped session |
| `StreamProtocol.StartInsideTeardownBreaksAgreement` | `lightrays/src/stream.rs:727-759` | from any state: a start let through inside a teardown ends with resources outside Streaming |
| `StreamProtocol.ConcurrentCompositorBuildsBreakAgreement` | `lightrays/src/stream.rs:304-343` | a run for the second cause: two concurrent compositor builds end with a stream outside Streaming, no teardown involved |
| `StreamProtocol.StoppedIsLeftOnlyByLateCompositor` | `lightrays/src/stream.rs:336-343` | exactly one section leaves Stopped, the commit of a compositor begun earlier |
| `StreamProtocol.StoppedIsFinalIffNobodyBuilds` | `lightrays/src/stream.rs:941-964` | a stop is final over every continuation if and only if no thread is still building the compositor |
| `StreamProtocol.OnceLaunchedStopsAreFinal` | `lightrays/src/server.rs:528-545` | as the server uses a session, built by one thread before it is shared: over every run a stop is final, and only a start inside a teardown breaks the agreement |
| `StreamProtocol.StopDuringCompositorBuildIsUndone` | `lightrays/src/stream.rs:304-343` | a run in which it is not: a stop during a compositor build is undone by its commit |
| `StreamProtocol.AtMostOneOwner` | `lightrays/src/stream.rs:790-815` | in every interleaving of any number of calls at most one thread owns the rebuild, the flag is up exactly then, and the pending target is the latest request until the owner has decided to leave |
| `StreamProtocol.PendingTargetIsNeverMissing` | `lightrays/src/stream.rs:830-833` | both branches for a missing pending target are unreachable |
| `StreamProtocol.RebuildsAreChargedToNewRequests` | `lightrays/src/stream.rs:817-937` | over any run each rebuild stores the size of a request of its own, newer than the one before, and the size in force is that of the last: rebuilds never outnumber requests |
| `StreamProtocol.OwnersTerminate` | `lightrays/src/stream.rs:817-937` | over any run all owners together execute at most eight sections per request |
| `StreamProtocol.OwnerMoves` | `lightrays/src/stream.rs:817-937` | an owner is never blocked: its next section is always enabled and counted |
| `StreamProtocol.OwnerServesLatestRequest` | `lightrays/src/stream.rs:835-849` | an owner about to return Ok leaves a size within 8 px per axis of the latest request its decision saw; every size in force is the initial one or even and in range |
| `StreamProtocol.DecisionSeesEveryRequest` | `lightrays/src/stream.rs:926-936` | that decision sees every request recorded before it, and after a rebuild leaves none pending |
| `StreamProtocol.FailuresAreReportedExactly` | `lightrays/src/stream.rs:898-914` | in every interleaving the error sender fires exactly in the section after a start the owner did not get, and is reset exactly by a new installation |
| `StreamProtocol.GuardHandsOwnershipBack` | `lightrays/src/stream.rs:807-815` | after the guard's drop nobody owns the rebuild and nothing is pending, and the next accepted request elects its caller with its own target |
| `StreamProtocol.FitKeptIff` | `lightrays/src/stream.rs:884-888` | a section keeps the live pipeline one that was built at the size in force if and only if it is not a store of another size under it |
| `StreamProtocol.PipelineFitsIff` | `lightrays/src/stream.rs:876-914` | over every run the same all along, exactly if no rebuild stores its size under a pipeline another thread started after the rebuild's own teardown |
| `StreamProtocol.LatestRequestServedIff` | `lightrays/src/stream.rs:796-938` | where nobody owns the rebuild, exactly when a pipeline runs that was built within 8 px of the latest request: one is live, and the last owner saw the request and left after its own rebuild, or saw it and settled with the pipeline fitting; for a late request, a failed rebuild or a pipeline that does not fit, exactly if the request the pipeline was built for is near |
| `StreamProtocol.ARequestIsUnservedInFiveWays` | `lightrays/src/stream.rs:796-938` | with nobody at work a request is unserved only if nothing runs, it landed in the drop window, there was no signaling channel, the rebuild failed, or it was settled on a size that does not run; the last needs a store under another thread's pipeline |
| `StreamProtocol.RequestInDropWindowIsLost` | `lightrays/src/stream.rs:807-815` | a request between the decision and the guard's drop is dropped from every such state: size and pipeline stay as they are |
| `StreamProtocol.LostInDropWindow` | `lightrays/src/stream.rs:807-815` | a run that loses a request in the drop window while a pipeline of another size runs |
| `StreamProtocol.LostWithoutChannel` | `lightrays/src/stream.rs:851-854` | a run that loses one before anyone has connected: the viewer that comes gets the old size |
| `StreamProtocol.LostInFailedRebuild` | `lightrays/src/stream.rs:898-914` | a run that loses one while the rebuild for another fails: the next viewer gets that other size |
| `StreamProtocol.LostToAnotherStart` | `lightrays/src/stream.rs:876-914` | a run in which a viewer starts between an owner's teardown and its store: its pipeline has the old size, and a request for the new one is answered Ok |
| `StreamProtocol.AnsweredWithNothingRunning` | `lightrays/src/stream.rs:835-838` | a run in which a rebuild fails and the same request, made again, is answered Ok with nothing running |
| `SessionStore.InsertCountsOne` | `lightrays/src/server.rs:464-492` | a new session counts once globally and once for its user, and for no other user |
| `SessionStore.InsertKeepsUnique` | `lightrays/src/server.rs:430-460` | after the conflicts are stopped an insert keeps one session per app and owner |
| `SessionStore.InsertKeepsCaps` | `lightrays/src/server.rs:464-492` | an insert right after a passed check respects the global cap and every user's cap |
| `SessionStore.CapsAllowAsConfigured` | `lightrays/src/server.rs:464-492` | the check passes exactly when fewer sessions than the global limit exist and the owner has fewer than the user limit, a limit of zero being none |
| `SessionStore.AppState.CleanupSession` | `lightrays/src/session_store.rs:69-97` | releases what the session owns and nothing else, and moves both counters |
| `SessionStore.AppState.StopSession` | `lightrays/src/session_store.rs:61-67` | removes one session and keeps resources and gauges matched to the map; nothing happens for an unknown id |
| `SessionStore.AppState.StopAllSessions` | `lightrays/src/session_store.rs:51-59` | empties the map and leaves no resource behind, with the totals equal |
| `SessionStore.AppState.StopConflicts` | `lightrays/src/server.rs:426-460` | exactly the owner's sessions for the app (or the title, without app_id) go |
| `SessionStore.AppState.AcquireResources` | `lightrays/src/server.rs:523-690` | every failing exit of the acquisition gives back what it took |
| `SessionStore.AcquiredMeans` | `lightrays/src/server.rs:523-690` | a launch that comes through has what it asked for, a sink only if one could be loaded, a container only with a runtime; it fails only for want of something it asked for |
| `SessionStore.AppState.Register` | `lightrays/src/server.rs:700-752` | the insert and its counters restore the match between map, resources and gauges |
| `SessionStore.AppState.HandleLaunch` | `lightrays/src/server.rs:370-781` | a launch alone replaces the conflicting sessions, succeeds exactly when the caps allow and the calls succeed, respects both caps, keeps one session per app, leaks nothing |
| `LaunchProtocol.CleanedUpExactlyOnce` | `lightrays/src/session_store.rs:51-97` | however many stoppers race, a session is cleaned up at most once, not while in the map, and exactly once when it has left it |
| `LaunchProtocol.ActiveGaugeInFlight` | `lightrays/src/server.rs:700-751` | at every step the gauge is the map size plus the sessions not yet subtracted minus those not yet added |
| `LaunchProtocol.GaugesAgreeAtQuiescence` | `lightrays/src/session_store.rs:69-97` | with nothing in flight the gauge, launched minus stopped, and the map size agree |
| `LaunchProtocol.ResourcesAreConserved` | `lightrays/src/server.rs:523-704` | in every interleaving a session in the map has exactly what it owns, and at quiescence nothing else exists |
| `LaunchProtocol.SinkOutlivesContainer` | `lightrays/src/session_store.rs:69-97` | over every run nothing is acquired for a session once its container exists, and its sink is not unloaded while the container is up |
| `LaunchProtocol.AcquisitionTracksHeld` | `lightrays/src/server.rs:528-690` | whatever the foreign calls answer, what exists for a launch is what it holds |
| `LaunchProtocol.AcquisitionAloneMatches` | `lightrays/src/server.rs:523-690` | the interleaved launch, undisturbed, acquires and gives back exactly what the sequential one does |
| `LaunchProtocol.CapOvershootIsBounded` | `lightrays/src/server.rs:464-492` | with at most k launches of a scope ever between cap check and insert, sessions plus in-flight launches never exceed the cap by more than k − 1, globally and per user; with k = 1 the cap is exact |
| `LaunchProtocol.EveryCheckerGetsThrough` | `lightrays/src/server.rs:464-492` | all launches of a scope that are about to check while there is room for one get through |
| `LaunchProtocol.BoundIsReached` | `lightrays/src/server.rs:464-704` | for any cap and any k, globally and per user, a run from an idle server with at most k launches in flight ends with exactly cap + k − 1 sessions |
| `LaunchProtocol.UniqueKeptIff` | `lightrays/src/server.rs:430-704` | a step keeps one session per app and every launch's claim on its app if and only if it is not an insert while another launch for the app is between its conflict scan and its insert |
| `LaunchProtocol.OneSessionPerApp` | `lightrays/src/server.rs:430-460` | over every run the same, exactly if no such insert occurs, with everything else interleaving; launches of one app that do not overlap are such a run |
| `LaunchProtocol.SessionsLeaveOnlyByRight` | `lightrays/src/server.rs:426-460` | over every run a session leaves the map exactly by its own stop, by shutdown, or by a launch that has it on its list; and what a launch takes is its own user's session of its own app, or of its own title if neither has an app_id |
| `LaunchProtocol.LaunchesWaitForCleanup` | `lightrays/src/server.rs:451-459` | over every run a launch goes on from a session it has stopped exactly when that session's cleanup is complete |
| `LaunchProtocol.OverlappingLaunchesDuplicate` | `lightrays/src/server.rs:430-704` | two launches of one app both past their conflicts, with room for both, end as two sessions when each runs to its insert |
| `LaunchProtocol.DuplicatesFromStart` | `lightrays/src/server.rs:430-704` | a run from an idle server in which they do |
| `ReconnectGrace.DisconnectedSessionIsWatched` | `lightrays/src/server.rs:939-1151` | in every reachable state a once-connected, now disconnected session in the map has a grace timer pending or a handler in mid-transition |
| `ReconnectGrace.GraceIsABound` | `lightrays/src/server.rs:1125-1151` | no session is in the map without a connection for longer than its grace period |
| `ReconnectGrace.TimersAreLeftBehind` | `lightrays/src/server.rs:1127-1137` | a timer comes into being exactly when a handler leaves without an error and grace is not zero, and is due one grace period later |
| `ReconnectGrace.TimersWaitTheWholeGrace` | `lightrays/src/server.rs:1136-1148` | over every run a timer takes a session exactly one grace period after the handler that spawned it left; the session had all its grace since the last disconnect if and only if that handler was the last to leave |
| `ReconnectGrace.EarlierTimerCutsGraceShort` | `lightrays/src/server.rs:1136-1148` | a run in which it was not: the timer of an earlier handler takes the session before the later disconnect's grace is over |
| `ReconnectGrace.TimersAskTheMap` | `lightrays/src/server.rs:1138-1139` | a timer whose session has gone ends without looking further |
| `ReconnectGrace.SecondHandlerIsTurnedAway` | `lightrays/src/server.rs:922-936` | a handler that finds the session streaming closes and leaves everything else as it was |
| `ReconnectGrace.HandlersAskTheMap` | `lightrays/src/server.rs:905-1050` | a handler closes without effect if the session is gone when it starts or once its pipeline runs |
| `ReconnectGrace.ConnectedSessionHasAHandler` | `lightrays/src/server.rs:945-1125` | while the flag is up some handler is between connecting and disconnecting, so nobody strands a session by skipping connected ones |
| `ReconnectGrace.FlagsStayUpIff` | `lightrays/src/server.rs:945-1125` | the flag stays up under every live handler if and only if no other handler of the session clears it |
| `ReconnectGrace.SafeKeptIff` | `lightrays/src/server.rs:939-1151` | a section keeps a session's live handlers safe if and only if it is none of four: a clear under another handler, a connect after a stop was decided, a start that loses the race, a departure without grace under another handler |
| `ReconnectGrace.LiveSessionsAreSafeIff` | `lightrays/src/server.rs:939-1151` | over every run: safe all along exactly if none of the four occurs, and a session with a live handler leaves the map by a timer or another handler only after one of them has |
| `ReconnectGrace.DecidedStopsHappen` | `lightrays/src/server.rs:1139-1147` | a decided stop takes the session with its next section, live handlers or not |
| `ReconnectGrace.PipelineStaysUpIff` | `lightrays/src/server.rs:1121-1124` | a section leaves the pipeline up under every handler that streams on it if and only if it is neither another handler's teardown nor a resize's |
| `ReconnectGrace.PipelinesStayUpIff` | `lightrays/src/server.rs:1007-1124` | the same over every run |
| `ReconnectGrace.OlderHandlerTakesPipeline` | `lightrays/src/server.rs:1121-1124` | a run in which a handler let in during a resize loses its pipeline to the older one's teardown |
| `ReconnectGrace.StaleHandlerDisarmsLiveSession` | `lightrays/src/server.rs:1125-1148` | a run for the first of the four: a slow handler clears the flag under its successor and its timer stops the session |
| `ReconnectGrace.TimerLooksTooEarly` | `lightrays/src/server.rs:1139-1147` | a run for the second: a timer has found the flag down when a handler connects, and stops its session |
| `ReconnectGrace.RaceLoserStopsWinner` | `lightrays/src/server.rs:1007-1015` | a run for the third: of two handlers that pass the stream check together, the second stops the session of the first |
| `ReconnectGrace.FailedHandlerStopsSuccessor` | `lightrays/src/server.rs:1125-1132` | a run for the fourth: a handler that saw a pipeline error stops the session of its successor |
| `Gamepad.WithButton` | `lightrays/src/gamepad.rs:166-176` | the bitmask arithmetic presses or releases exactly one button |
| `Gamepad.HeldSetIsFaithful` | `lightrays/src/gamepad.rs:86-91` | comparing masks is comparing the sets of held buttons |
| `Gamepad.NumbersAgree` | `lightrays/src/gamepad.rs:60-91` | the sender's button numbers are libretro's, no two alike |
| `Gamepad.MessageRoundTrip` | `lightrays/src/gamepad.rs:251-260` | every field of every message survives encoding, and the padding is zero |
| `Gamepad.JoypadLayout` | `lightrays/src/gamepad.rs:227-260` | the twenty bytes of a button message: device 1, the button's number in the id, pressed in the state |
| `Gamepad.AnalogLayout` | `lightrays/src/gamepad.rs:227-260` | and of an axis message: device 5, stick in the index, axis in the id, two's complement in the state |
| `Gamepad.AnalogValueRoundTrip` | `lightrays/src/gamepad.rs:235-242` | every 16-bit axis value survives its trip through the unsigned field |
| `Gamepad.FillMessage` | `lightrays/src/gamepad.rs:251-260` | filling the buffer field by field gives the 20-byte packet |
| `Gamepad.WireIsFaithful` | `lightrays/src/gamepad.rs:227-260` | over the wire the receiver reads exactly the messages sent |
| `Gamepad.MessageMeansEvent` | `lightrays/src/gamepad.rs:214-222` | a message does to the receiver's pad what its event means |
| `Gamepad.MessageReachesTheGame` | `lightrays/src/gamepad.rs:214-222` | read through libretro's own button table, a message does to the game's buttons and sticks what the event meant |
| `Gamepad.SendingEverythingGivesTheSame` | `lightrays/src/gamepad.rs:166-212` | sending every event and, on every release, all sixteen buttons and four axes gives the receiver the reference fold |
| `Gamepad.ReleaseAllDelivers` | `lightrays/src/gamepad.rs:195-212` | the packets of a release bring the receiver to neutral from any agreed state |
| `Gamepad.RemoteGamepad.constructor` | `lightrays/src/gamepad.rs:124-133` | starts neutral and in agreement with the receiver |
| `Gamepad.RemoteGamepad.Send` | `lightrays/src/gamepad.rs:139-159` | appends exactly one packet to the wire |
| `Gamepad.RemoteGamepad.ApplyButton` | `lightrays/src/gamepad.rs:167-180` | a packet goes out exactly when the held set changes, and the game sees exactly that button pressed or released |
| `Gamepad.RemoteGamepad.ApplyAxis` | `lightrays/src/gamepad.rs:181-192` | a packet goes out exactly when the axis value changes |
| `Gamepad.RemoteGamepad.Apply` | `lightrays/src/gamepad.rs:166-193` | the sender's state follows the event's meaning and the receiver stays in agreement |
| `Gamepad.RemoteGamepad.ReleaseButtons` | `lightrays/src/gamepad.rs:195-203` | every held button is released once, in order, and no other |
| `Gamepad.RemoteGamepad.RecentreAxes` | `lightrays/src/gamepad.rs:204-212` | every deflected axis is recentred once and no other |
| `Gamepad.RemoteGamepad.ReleaseAll` | `lightrays/src/gamepad.rs:195-212` | leaves sender and receiver neutral |
| `Gamepad.RemoteGamepad.AgreementReachesTheWire` | `lightrays/src/gamepad.rs:139-222` | what the receiver decodes from the bytes is the sender's state |
| `Gamepad.RemoteGamepad.Drive` | `lightrays/src/gamepad.rs:166-223` | for any sequence of events and releases the receiver's fold of the wire equals both the reference and the fold of a wire on which nothing is suppressed; seen through libretro's table a button is held exactly if its last event was a press with no release of everything since |
| `Gamepad.HeldIffLastPressed` | `lightrays/src/gamepad.rs:166-212` | in the meaning of a run of commands, given without numbers, a button is held exactly if the last command about it pressed it |
| `Gamepad.AxisIsMonotone` | `lightrays/src/gamepad.rs:269-283` | more deflection never gives less output, over all reals |
| `Gamepad.AxisIsOdd` | `lightrays/src/gamepad.rs:269-283` | the two directions of a stick behave alike |
| `Gamepad.AxisRange` | `lightrays/src/gamepad.rs:269-283` | within ±32767, full at full deflection, zero exactly where the rescaled deflection rounds to zero, the deadzone included |
| `Gamepad.AxisIsLinear` | `lightrays/src/gamepad.rs:269-283` | outside the deadzone the output is linear in the deflection, from 0 at its edge to 32767 at full, to within rounding |
| `Gamepad.AxisShrinksWithDeadzone` | `lightrays/src/gamepad.rs:269-283` | a wider deadzone never gives a stronger output |
| `Gamepad.LayoutIsABijection` | `lightrays/src/input.rs:161-182` | the sixteen standard browser buttons drive the sixteen RetroPad buttons one to one |
| `Gamepad.ParseMeansWhatWasSent` | `lightrays/src/input.rs:161-222` | a standard button and a stick axis come through as what was meant, every parsed event is within the pad's ranges, and a message is dropped exactly if a field is missing or its button has no counterpart |
| `Gamepad.StickIndicesAreClamped` | `lightrays/src/input.rs:202-222` | stick and axis numbers are cut to 32 bits and then clamped to 0 and 1 |
| `InputBudget.TokensStayInRange` | `lightrays/src/stream.rs:178-190` | tokens stay in [0, rate] over any run, whatever the clock does |
| `InputBudget.Conservation` | `lightrays/src/stream.rs:178-190` | events let through plus tokens left never exceed tokens at the start plus tokens earned |
| `InputBudget.WindowBound` | `lightrays/src/stream.rs:178-190` | in any window of length T of any run at most rate · (1 + T) events get through |
| `InputBudget.BurstLetsThrough` | `lightrays/src/stream.rs:178-190` | of n events at one instant exactly as many get through as there are whole tokens, counting what was earned up to the rate; a clock that has gone back earns nothing |
| `InputBudget.BurstAfterQuiet` | `lightrays/src/stream.rs:178-190` | after a quiet second, and at the start, a burst gets exactly the rate through |
| `InputBudget.DeniedEventsCostNothing` | `lightrays/src/stream.rs:178-190` | over every run the events let through are those that would be if no denied one had ever arrived, so a flood does not starve the session |
| `InputBudget.SpacedEventsPassIffRateAtLeastOne` | `lightrays/src/stream.rs:178-190` | events 1/rate apart all pass if and only if the rate is at least one; below one none does |
| `InputBudget.SessionInput.NoteAndAllowInput` | `lightrays/src/stream.rs:178-190` | spends a token exactly when a whole one is there, and notes the activity either way |
| `InputBudget.SessionInput.HandleInputMessage` | `lightrays/src/stream.rs:208-240` | over budget nothing happens but the note; a message of the two gamepad kinds only ever reaches the pad, with its event played exactly if it parses, and any other only the compositor |
| `InputBudget.SessionInput.HandleInputMessages` | `lightrays/src/stream.rs:208-240` | a burst from either transport, with or without a pad, produces no more packets and events than its window's budget |
| `EnvMerge.EnvList.Set` | `lightrays/src/launch.rs:583-590` | map update that keeps the order of existing keys and introduces no duplicate |
| `EnvMerge.EnvList.Remove` | `lightrays/src/launch.rs:592-594` | map removal that keeps the order of the rest |
| `EnvMerge.BuildGowEnv` | `lightrays/src/launch.rs:510-581` | the in-place edits refine plain override of application by contract variables, without duplicates, without the other compositor's key, and with the application's keys first and in order |
| `EnvMerge.ContractWins` | `lightrays/src/launch.rs:540-575` | the order of the edits amounts to one override |
| `EnvMerge.SplitOnce` | `lightrays/src/docker.rs:692-702` | a line splits at its first equals sign, and only if it has one |
| `EnvMerge.LineRoundTrip` | `lightrays/src/docker.rs:692-702` | an entry survives `k=v` exactly when its key has no equals sign |
| `EnvMerge.RoundTripIffNoEquals` | `lightrays/src/docker.rs:692-702` | so does a whole list, if and only if all its keys are free of it |
| `EnvMerge.LastLineDecides` | `lightrays/src/docker.rs:692-702` | a variable is set exactly if a line starts with its name and an equals sign, the last such line decides, and lines without an equals sign are ignored |
| `EnvMerge.DecimalReads` | `lightrays/src/docker.rs:714-724` | a number printed in decimal digits reads back as itself |
| `EnvMerge.DefaultsYield` | `lightrays/src/docker.rs:703-744` | `DISPLAY` and `VNC_PORT` only default, wherever in the sequence they are inserted |
| `EnvMerge.BuildContainerEnv` | `lightrays/src/docker.rs:692-744` | defaults, overridden by the parsed lines, overridden by session variables |
| `EnvMerge.SessionReachesContainer` | `lightrays/src/docker.rs:703-737` | whatever the application set, the container sees the session's width, height, rate, display, sink and runtime directory, each under its own name |
| `EnvMerge.ApplicationReachesContainer` | `lightrays/src/docker.rs:692-744` | every other variable, and each the session has no value for, is as the lines set it, absent if they do not |
| `EnvMerge.DefaultsReachContainer` | `lightrays/src/docker.rs:718-729` | display and VNC port are the lines' if they set them, and :99 and 5900 if not |
| `EnvMerge.MergeIsOverrideIffPlainKeys` | `lightrays/src/launch.rs:510-594` | end to end, the container sees application < contract < session exactly when no application key contains an equals sign |
| `EnvMerge.OtherCompositorSeenIff` | `lightrays/src/launch.rs:541-557` | the container sees the compositor that was not selected if and only if an application key starts with its name and an equals sign |
| `EnvMerge.ContractReachesContainerIff` | `lightrays/src/launch.rs:503-508` | a contract variable reaches the container unchanged unless the application both sets it and has a key that starts with its name and an equals sign |
| `EnvMerge.ContractReachesContainer` | `lightrays/src/launch.rs:540-575` | with plain keys, by name: the selected compositor's variable is 1 and the other's absent, devices and keyboard as managed |
| `EnvMerge.OnlyBlankKeysAreDropped` | `lightrays/src/launch.rs:182-191` | a key of blanks and line ends is dropped; a key with a visible character is kept with its value |
| `OrphanSweep.SweepNameIsCarried` | `lightrays/src/docker.rs:564-580` | a container is considered exactly when one of its names is in the reserved namespace, and under such a name |
| `OrphanSweep.ReportedNames` | `lightrays/src/docker.rs:564-580` | a container carries a name exactly if the runtime lists it with or without a leading slash |
| `OrphanSweep.LaunchedContainerIsFound` | `lightrays/src/docker.rs:564-580` | a container listed as `/lightrays-s` or `lightrays-s` is swept as `lightrays-s`, for every session s |
| `OrphanSweep.FirstReportedNameDecides` | `lightrays/src/docker.rs:567-575` | of several names the first that is reserved as listed decides |
| `OrphanSweep.AgeIsExact` | `lightrays/src/docker.rs:585-594` | saturating subtraction never changes which containers are old enough |
| `OrphanSweep.DockerRunner.StopContainer` | `lightrays/src/docker.rs:443-470` | removes exactly what carries the name, and tolerates failure |
| `OrphanSweep.DockerRunner.SweepOrphanContainers` | `lightrays/src/docker.rs:545-602` | what is left is what carries no doomed name, and the count is the number of orphans listed; a failed listing changes nothing |
| `OrphanSweep.ForeignContainersAreUntouched` | `lightrays/src/docker.rs:564-580` | a container without a reserved name is never removed |
| `OrphanSweep.SweepRemovesExactlyTheOrphans` | `lightrays/src/docker.rs:562-600` | removed exactly: reserved name, not active, old enough or of unknown age, and removal works |
| `OrphanSweep.ReportedCountIsWhatWent` | `lightrays/src/docker.rs:543-602` | the number returned is the number of containers gone |
| `OrphanSweep.ReportedCountIsOfOrphans` | `lightrays/src/docker.rs:543-602` | the number returned is the number of orphans listed, removed or not |
| `OrphanSweep.StartupSweepClearsTheNamespace` | `lightrays/src/server.rs:72-88` | at startup exactly the containers listed under a name that begins with `lightrays-` or `/lightrays-` go |
| `OrphanSweep.InFlightSparedIffMargin` | `lightrays/src/server.rs:293-297` | a launch still to register its container is always spared if and only if its delay and the sweep's gap add up to at most 119 s |
| `OrphanSweep.WholeSecondMargin` | `lightrays/src/server.rs:293-297` | at whole-second times the exact margin is 120 s |
| `OrphanSweep.PeriodicSweepSparesSessions` | `lightrays/src/server.rs:348-362` | the periodic sweep removes no container of a session in its snapshot, whatever is known of its age |
| `OrphanSweep.PeriodicSweepSparesLaunchesIff` | `lightrays/src/docker.rs:582-600` | within the margin a launch still to register its container is spared if and only if the creation time is known, or removal does not work |
| `Favorites.FixpointIsTheSubtree` | `backend/alembic/versions/favmon001_add_monitored_to_media_item.py:55-63` | a set grown from the favorited rows and closed under children is exactly the rows with a favorited ancestor or self |
| `Favorites.MarkingIsInherited` | `backend/alembic/versions/favmon001_add_monitored_to_media_item.py:44-45` | whatever is below a marked row is marked, and so a cycle as a whole |
| `Favorites.MarksDoNotMatter` | `backend/alembic/versions/favmon001_add_monitored_to_media_item.py:55-63` | only the parent column decides |
| `Favorites.Database.FavoriteRoots` | `backend/alembic/versions/favmon001_add_monitored_to_media_item.py:49-54` | the join yields exactly the items that a row puts on a list of type FAVORITES |
| `Favorites.Database.Subtree` | `backend/alembic/versions/favmon001_add_monitored_to_media_item.py:55-63` | the UNION iteration terminates on every parent graph, cyclic ones too, with exactly the rows under a root |
| `Favorites.Database.Upgrade` | `backend/alembic/versions/favmon001_add_monitored_to_media_item.py:24-70` | a row is monitored exactly if it is under a favorite; monitored rows have source "favorite" and the time, every other row the column defaults, and no parent changes |
| `Dedup.LosersHaveAWinner` | `backend/alembic/versions/uniqcon001_add_dedup_unique_constraints.py:22-31` | every row survives or is beaten by a row that survives |
| `Dedup.KeysArePreserved` | `backend/alembic/versions/uniqcon001_add_dedup_unique_constraints.py:22-31` | no key disappears in a DELETE, null timestamps or not |
| `Dedup.SurvivorBeatsTheRest` | `backend/alembic/versions/uniqcon001_add_dedup_unique_constraints.py:71-79` | a survivor comes before every other row of its key in the strict (timestamp, ctid) order |
| `Dedup.ExactlyOneSurvivor` | `backend/alembic/versions/uniqcon001_add_dedup_unique_constraints.py:38-46` | with known timestamps each key keeps exactly one row, the extremal one |
| `Dedup.NullRowsSurvive` | `backend/alembic/versions/uniqcon001_add_dedup_unique_constraints.py:86-96` | rows a statement does not concern, and rows without a timestamp, are never deleted |
| `Dedup.DeletedListItems` | `backend/alembic/versions/uniqcon001_add_dedup_unique_constraints.py:22-31` | a list item goes exactly if an older row has its list, item and type, or its list goes |
| `Dedup.DeletedViewings` | `backend/alembic/versions/uniqcon001_add_dedup_unique_constraints.py:38-46` | a viewing goes exactly if a newer row has its user and item |
| `Dedup.DeletedLists` | `backend/alembic/versions/uniqcon001_add_dedup_unique_constraints.py:53-62` | a list goes exactly if it is a favorites list and an older one has its owner |
| `Dedup.DeletedExternalIds` | `backend/alembic/versions/uniqcon001_add_dedup_unique_constraints.py:71-79` | an external id goes exactly if an older row has its provider and id |
| `Dedup.DeletedDownloads` | `backend/alembic/versions/uniqcon001_add_dedup_unique_constraints.py:86-96` | a download goes exactly if it is active and a newer active one has its link |
| `Dedup.UniqueAfterwardsIffNoNullBeside` | `backend/alembic/versions/uniqcon001_add_dedup_unique_constraints.py:32-36` | the constraint can be created if and only if no row with a null timestamp shared its key |
| `Dedup.Database.Upgrade` | `backend/alembic/versions/uniqcon001_add_dedup_unique_constraints.py:21-106` | the migration goes through exactly under that condition on its three nullable tables, and otherwise changes nothing |
| `Dedup.MigratedMeetsTheConstraints` | `backend/alembic/versions/uniqcon001_add_dedup_unique_constraints.py:32-106` | afterwards all five constraints hold together, the cascade included |
| `Dedup.FavoritesOfSurvivingListsRemain` | `backend/alembic/versions/uniqcon001_add_dedup_unique_constraints.py:53-62` | a user keeps exactly the favorites that were on a surviving list |
| `Dedup.AFavoriteCanBeLost` | `backend/alembic/versions/uniqcon001_add_dedup_unique_constraints.py:53-62` | an item on the newer of two favorites lists only is lost |
| `Dedup.CascadeKeepsReferences` | `backend/alembic/versions/8ddc19538838_.py:360-372` | items left behind are on lists left behind |
| `Dedup.NewestActiveDownloadIsLeft` | `backend/alembic/versions/uniqcon001_add_dedup_unique_constraints.py:86-96` | among active downloads of one link the newest is left |
| `ScanLock.StartsAreAnHourApart` | `backend/src/streamarr/worker.py:111-117` | on every schedule two tasks holding one library's lock got it at least 3600 s apart |
| `ScanLock.ScansWithinTheHourNeverOverlap` | `backend/src/streamarr/worker.py:111-150` | two scans of one library that are both within 3600 s of their start are the same scan, whatever has become of any other holder |
| `ScanLock.LockedIffSomeHolderIsFresh` | `backend/src/streamarr/worker.py:111-150` | the key is there exactly while some holder's 3600 s are not up |
| `ScanLock.AcquiresIffNoFreshHolder` | `backend/src/streamarr/worker.py:114-117` | a task gets the lock if and only if no holder is fresh, so a dead holder blocks for at most 3600 s |
| `ScanLock.ReleaseSparesOtherHolders` | `backend/src/streamarr/worker.py:142-149` | releasing never deletes another holder's key, overrun or not |
| `ScanLock.ReleaseFreesOwnLock` | `backend/src/streamarr/worker.py:142-149` | releasing in time frees the library at once |
| `ScanLock.AnOverrunAdmitsASecondScan` | `backend/src/streamarr/worker.py:114` | a scan that overruns 3600 s can be joined by another |
| `ScanLock.Cluster.SetNxEx` | `backend/src/streamarr/worker.py:114` | sets the key exactly when it is absent or expired |
| `ScanLock.Cluster.EvalCompareDelete` | `backend/src/streamarr/worker.py:143-149` | deletes the key exactly when it still holds the token |
| `ScanLock.Cluster.ScanChangedLibrary` | `backend/src/streamarr/worker.py:101-150` | a whole task, with anything happening during its scan, is the run of its own steps around the others', keeps the invariant, leaves none of its own lock behind and returns the right status |

## Left out

- GStreamer pipelines, pads, SDP, ICE, encoder detection and the bridge thread: foreign calls that succeed or fail.
- Docker, Kubernetes and PulseAudio calls beyond their effect on which containers, modules and compositors exist; the workload monitor, idle reaper, stop API and failure paths are one event, stopping a session.
- The handlers of `lightrays/src/server.rs` that interleave are state machines on values, because a class method cannot be interrupted between its sections; `SessionStore.AppState` has them in class form for runs without interference.
- The section of `change_resolution` that reads the STUN and TURN servers (`lightrays/src/stream.rs:891-897`): it writes nothing.
- Which sessions the idle reaper picks (neither connected nor active within the timeout, `lightrays/src/server.rs:304-345`): any session may be stopped at any time in the model.
- The encoder's cap on the picture width (`lightrays/src/stream.rs:387-402`): the size of a pipeline is the one it is started for.
- HTTP requests abandoned by their client, authentication, scopes, mount and image validation.
- Metrics other than the three session counters, logging, configuration.
- Keyboard and mouse tables; what the compositor does with an event it is handed.
- Lost, reordered or refused datagrams, and a socket that cannot be bound: with loss the delta sender and its receiver can disagree, and the source does not promise otherwise.
- Floating-point rounding, NaN and infinities in the token bucket and in `axis_to_i16`.
- The order in which application variables are first inserted and the order of the container's variables, which a map does not have.
- Deletions that the removed list rows cascade to in tables other than `list_item`.
- The full-library scan lock, which uses another key (`backend/src/streamarr/workers/library_scan_worker.py:26`): a full scan may overlap a scan of one library.
- What a scan does to the database, the retry of a failed task (a new task here), other migrations and other worker tasks.
- Gamepad.RemoteGamepad.Drive: assumes lossless, ordered delivery.
- ReconnectGrace.GraceIsABound: assumes punctual timers and sections that take no time.
- LaunchProtocol.ResourcesAreConserved: assumes that stopping and unloading succeed and that no handler is cancelled half way.
- JSON syntax: a message is the fields the parser looks at.
