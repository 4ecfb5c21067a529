# A verified model of the Crankshaft core: projection protocol, mixer, framers

The project models three parts of the system and proves what they are for.

- **The Android Auto connection, session and projection protocol** of `RealAndroidAutoService`.
  `ServiceState` holds its state by component, `ServiceSteps` and `ServiceEvents` its operations and
  the labelled step over API calls, channel callbacks, timers and settled promises. Pending timers
  and promises are sets in the state, and each component keeps the history of what it did.
  `ServiceInvariants`, `SessionLifecycle`, `ComponentSteps`, `ServiceProofs` and `StepProofs` prove
  that every step keeps the invariants; `RequestChains` how a step may change the version requests.
  `ServiceTheorems`, `HandshakeQuiet`, `LoneChain`, `RequestBudget`, `StalledChain`, `Announcements`,
  `SessionRows`, `ErrorOutcomes` and `TimeoutOutcomes` state the guarantees for every reachable state and every run, and `TwoChains`, `RequestBudget`,
  `StalledChain`, `Announcements` and `SessionRows` exhibit the runs that break a promise.
  `Observations` says what single operations show their caller, and `AndroidAutoService` is the service as
  an object whose handlers update its fields: each does what the step says and keeps the object reachable.
  `ErrorText` is the text classification that drives recovery.
- **The software audio mixer** `AudioMixer`: per-channel queues, conversion, mixing in place,
  removal (`Pcm`, `FormatConversion`, `Mixing`, `MixerState`, `MixedSound`, `AudioMixer`).
- **The byte-stream codecs**: the SLCAN encoder and parser of `CANDevice`, the line framer of
  `GPSDevice`, and the H.264 start-code scanners (`Bytes`, `Wrappers`, `Framing`, `Slcan`, `CanDevice`,
  `GpsDevice`, `H264`).

`dafny verify dfyconfig.toml` checks everything.

## Assumptions

- The clock is positive and does not go back, a timer fires only while pending and not early, and a
  promise settles at most once. Slots connected to the service's signals do not call back into it.
- Calls of the session store succeed; session ids are fresh (drawn from a counter). Configuration
  values stay the same during a run and lie within the bounds the code applies to them.
- Sends, USB resets, opening of devices and creation of AASDK objects have arbitrary outcomes, which
  are parameters of the events. Recovery and idle timers and channel callbacks may occur at any time; hub
  promises, sends and accepts may settle any time after they began, also when a teardown of the stack has
  dropped them. So the runs considered include all real ones. The five runs shown to exist (`TwoChains`,
  `RequestBudget`, `StalledChain`, `Announcements`, `SessionRows`) use API calls, pending timers, promises and
  accepts, and the channel callbacks of a phone that connects, and tear no stack down before an accept or a send
  settles.
- `float` is read as `real`, and the resampling ratio as the exact rational inRate/outRate; a cast to
  `int16_t` truncates toward zero and has to be in range. Samples are little-endian 16-bit. The number of
  input frames times the output rate stays below 2^31. Mixing is defined for volumes in 0..1, which the setters
  enforce and `addChannel` leaves to its caller.
- Arrivals of data carry the bytes the transport's `read()` returns.

## What the proofs show about the code

- The promise that the version requests of a connection form one chain fails: a pending request timer
  outlives its connection, so a new control handler can start a second chain beside it
  (`TwoChains.TwoChainsRunAtOnce`). It holds, until the next handler is created, exactly when the new
  handler finds nothing pending (`LoneChain.SingleChainIff`).
- The bound of W/250 + 1 version requests per connection holds for such a handler as long as no version response
  arrives, and each response can add as many again (`RequestBudget.ConnectionSendsInAll`): the first request is
  sent even when a version is already known, and `startSearching` while CONNECTED forgets the version under a
  pending retry. One response is enough to exceed it (`RequestBudget.OneResponseOverspends`).
- While CONNECTED, a transfer timeout that is not retried is absorbed by re-arming the receives; the chain stops
  and no recovery starts (`UnretriedTimeoutStalls`, a run in `StalledChain.ChainStalls`). Exactly when a
  rejected request ends that way is `RejectionStallsIff`.
- The immediate recovery at RealAndroidAutoService.cpp:5722 cannot be entered, since it sits below the threshold test.
- The accept of an abandoned search stays pending, and when it completes on a CONNECTED service the new
  session gets no heartbeat and its row stays at "negotiating" (`SecondConnectionLosesHeartbeat`); from any
  other state a new connection has its heartbeat (`HeartbeatRunsIff`).
- A session that ends in ERROR is stored as "ended" (`FailureIsStoredAsEnded`, `RowsReadTheirState`).
- In H.264 passthrough a frame makes the service ready without a status being published, and the last published
  status stays wrong until something else is announced (`AnnouncementIsStaleIff`, a run in `ReadyIsReachable`);
  in every other configuration the last one is always right (`ReadinessIsAnnounced`).
- The error classifiers match digit prefixes: native code 21 passes for 2 (`UsbTransferMatchesPrefixes`).
- Clearing a tail of more than 4096 bytes makes the framers depend on the chunking, exactly when some
  chunk leaves such a tail (`ChunkedFeedIsWholeScanIff`, `LongTailIsLost`).
- `applySaturation` folds back, so it is not monotone and clipped mixes depend on the order of ties
  (`SaturationFoldsBack`, `LoudMixDependsOnOrder`). Quiet mixes do too, by their truncated fractions
  (`QuietMixDependsOnOrder`), unless every volume is 1 (`FullVolumeMixIgnoresOrder`).
- An SLCAN frame survives exactly when its id fits three digits and its payload one digit of length;
  `extended`, `rtr` and `fd` are not transmitted (`FrameRoundTripIff`).

## Model

| member | source | states |
|---|---|---|
| StepProofs.EveryRunIsSafe | src/services/android_auto/RealAndroidAutoService.cpp:4251-7899 | in every state any sequence of API calls, callbacks, timers and settled promises can reach, the session, readiness, watchdog, version-request, search and grace-window invariants hold together |
| ServiceTheorems.SessionLifecycleHolds | src/services/android_auto/RealAndroidAutoService.cpp:7044-7253 | in every reachable state CONNECTED means an ACTIVE, stored session, CONNECTING a NEGOTIATING one, DISCONNECTED an ENDED or ERROR one; the heartbeat runs only in an ACTIVE session with an id; the open rows are exactly the current id; no row is open while DISCONNECTED, SEARCHING or in ERROR; every row is created first, ended at most once and never written after its end |
| SessionLifecycle.EndedRowsReadEnded | src/services/session/SessionStore.cpp:332-346 | a row that was ended reads "ended", whatever state its session was in |
| SessionRows.NothingWrittenAfterEnd | src/services/android_auto/RealAndroidAutoService.cpp:7223-7253 | in every reachable state, at every position of the store history: no write follows the end of the session it names |
| SessionLifecycle.FailureIsStoredAsEnded | src/services/android_auto/RealAndroidAutoService.cpp:7083-7141 | whenever a connection with a session fails, its row is written "error" and at once ended, once, so it reads "ended" |
| SessionRows.RowsReadTheirState | src/services/android_auto/RealAndroidAutoService.cpp:7083-7253 | in every reachable state the current row reads "active" exactly while its heartbeat runs and "negotiating" otherwise, and every other row reads "ended"; none ever reads "error" |
| SessionRows.SecondConnectionLosesHeartbeat | src/services/android_auto/RealAndroidAutoService.cpp:3373-3391 | the promise that a connected session has a heartbeat is false: a run over Wi-Fi (listen, stop searching, connect outbound, then the first accept completes) reaches a CONNECTED, ACTIVE service whose heartbeat is off and whose row reads "negotiating" |
| SessionRows.HeartbeatRunsIff | src/services/android_auto/RealAndroidAutoService.cpp:5022-5285 | from every reachable state, establishing a connection starts a fresh ACTIVE session whose heartbeat runs, and whose row reads "active", if and only if the service was not CONNECTED before; the session it replaces is ended once |
| SessionRows.AcceptedHeartbeatIff | src/services/android_auto/RealAndroidAutoService.cpp:3373-3391 | the same for a pending accept that completes, in whatever state the service then is |
| LoneChain.ReachableRests | src/services/android_auto/RealAndroidAutoService.cpp:4639-4664 | between events the service is never AUTHENTICATING, SECURING or DISCONNECTING, and the control channel exists exactly when its handler does |
| ServiceTheorems.ReadinessProvenance | src/services/android_auto/RealAndroidAutoService.cpp:6444-6451 | whenever readiness was announced, a connection had been established and, since the last reset, a version response and a discovery request had arrived and, with video, the channel was opened, set up, started and not stopped or failed since, and a frame accepted after the last stop; in H.264 passthrough every accepted frame carries a slice |
| Announcements.ReadinessIsAnnounced | src/services/android_auto/RealAndroidAutoService.cpp:7009-7042 | outside H.264 passthrough, in every reachable state, the newest entry of the status history announces readiness exactly as it is |
| Announcements.AnnouncementIsStaleIff | src/services/android_auto/RealAndroidAutoService.cpp:7255-7402 | in every reachable state, under every configuration, what was announced last differs from readiness if and only if the service is ready and nothing has happened to the status since a frame arrived; an announced readiness is always true |
| Announcements.ReadyIsReachable | src/services/android_auto/RealAndroidAutoService.cpp:7255-7402 | under every configuration a run (connect, version response, discovery request, video opened, set up and started, one slice) reaches a ready service, whose last announcement says not ready exactly in H.264 passthrough |
| Announcements.StepTells | src/services/android_auto/RealAndroidAutoService.cpp:4251-7899 | every event but a video frame leaves connection state and projection status alone or ends by announcing readiness as it then is |
| ServiceTheorems.WatchdogEpochs | src/services/android_auto/RealAndroidAutoService.cpp:1435-1579 | in every reachable state pending watchdog timers have pairwise distinct epochs and at most one can act; a version response leads to at most one retry transmission and one timeout error; a timeout error was raised only with no handshake message, discovery request, reset or control error since its response |
| HandshakeQuiet.NoWatchdogUntilNextResponse | src/services/android_auto/RealAndroidAutoService.cpp:1589-1669 | from a handshake message, a discovery request, a reset by whatever call, callback, timer or new connection, or a control error, until the next version response, over any run of further events, no pending watchdog can act |
| HandshakeQuiet.WatchdogWorksIffActs | src/services/android_auto/RealAndroidAutoService.cpp:1446-1470 | a fired watchdog changes something beyond using up its timer if and only if a handshake is awaited, its epoch is current, discovery is open and the service is CONNECTED or CONNECTING |
| HandshakeQuiet.StepCalm | src/services/android_auto/RealAndroidAutoService.cpp:1437-1446 | no event but a version response makes the service await a handshake |
| ServiceTheorems.RequestsAreBounded | src/services/android_auto/RealAndroidAutoService.cpp:5586-5759 | the version requests of one chain are at least 250 ms apart, none is sent after the recovery window W of its period, and each chain sends at most W/250 + 1 in one period |
| ServiceTheorems.OneTokenPerChain | src/services/android_auto/RealAndroidAutoService.cpp:5211-5247 | a chain of version requests never has more than one outstanding promise or pending timer |
| LoneChain.NewChainIsAloneIff | src/services/android_auto/RealAndroidAutoService.cpp:5211-5247 | at the moment a control handler is created a single request is pending exactly when none was pending before |
| LoneChain.SingleChainIff | src/services/android_auto/RealAndroidAutoService.cpp:5211-5247 | from the creation of a control handler until the next one, over every run, at most one request or retry is pending, if and only if the creation found none pending |
| LoneChain.DeadChainsStayDead | src/services/android_auto/RealAndroidAutoService.cpp:5586-5759 | after any run the pending chains were pending before or were begun by a handler created since: a chain with nothing pending never gets a request again |
| RequestBudget.ConnectionSendsInAll | src/services/android_auto/RealAndroidAutoService.cpp:5211-5759 | from the creation of a control handler that found nothing pending until the next creation, over every run with v version responses, the requests sent number at most (v + 1)(W/250 + 1) altogether: W/250 + 1 as long as no version response arrives |
| RequestBudget.OneResponseOverspends | src/services/android_auto/RealAndroidAutoService.cpp:4251-4274 | the bound of W/250 + 1 for a whole connection fails with the first version response: under every USB configuration a run with a single one (requests until the window is full, the response, a new search while CONNECTED that forgets it, requests again) sends more |
| LoneChain.ConnectionSendsFew | src/services/android_auto/RealAndroidAutoService.cpp:5586-5759 | in each single period between two resets of its first-request time, a connection whose handler found nothing pending sends at most W/250 + 1 requests |
| LoneChain.WindowEndsOnlyBy | src/services/android_auto/RealAndroidAutoService.cpp:5211-5247 | one event resets the first-request time only if it is a version response, loses the control channel, or creates a control handler |
| RequestChains.StepAdvances | src/services/android_auto/RealAndroidAutoService.cpp:4251-7899 | every event begins at most one chain, keeping all that is pending, or continues chains that were pending; a version response sends nothing, and without a new handler nothing is sent without a control channel and a lost one does not come back |
| TwoChains.TwoChainsRunAtOnce | src/services/android_auto/RealAndroidAutoService.cpp:3179-3194 | the single-chain promise is false: a run over USB (connect, deinitialise before the first request is due, initialise, connect again) reaches a state with two chains pending |
| ServiceTheorems.PendingRetrySurvivesRecovery | src/services/android_auto/RealAndroidAutoService.cpp:4104-4192 | an immediate recovery drops the control channel and its handler but not a pending request timer |
| ServiceTheorems.RejectionRetriesOrReports | src/services/android_auto/RealAndroidAutoService.cpp:5628-5738 | a rejected version request schedules exactly one retry, 250 ms to 5 s later, if and only if it was in progress or a native-2 timeout below the threshold while CONNECTED with attempts left; otherwise it reports one control error; the immediate recovery of line 5722 is never taken |
| StalledChain.RejectionStallsIff | src/services/android_auto/RealAndroidAutoService.cpp:5628-5740 | in every reachable state a rejected version request leaves neither a request or timer of its chain nor a recovery if and only if it is not retried, no recovery is under way, and the error it reports leads to none: teardown, a recoverable text while CONNECTED, the no-device grace count, or no recovering class |
| StalledChain.UnretriedTimeoutStalls | src/services/android_auto/RealAndroidAutoService.cpp:5648-5740 | so while CONNECTED a transfer timeout stalls its chain at the reconnect threshold, with native code -4, and whenever fast reconnect is off |
| ServiceTheorems.ThresholdTimeoutStallsTheChain | src/services/android_auto/RealAndroidAutoService.cpp:5655-5738 | while CONNECTED the native-2 timeout that reaches the reconnect threshold does not reconnect: connection, session, readiness and search stay as they are, and the chain ends with nothing pending |
| ServiceTheorems.ThresholdTimeoutRecoversIff | src/services/android_auto/RealAndroidAutoService.cpp:5648-5740 | the timeout that reaches the threshold leads to recovery if and only if one is under way already, or the service is neither CONNECTED nor in teardown and the error is not covered by the no-device grace count |
| StalledChain.ChainStalls | src/services/android_auto/RealAndroidAutoService.cpp:5648-5740 | a run over USB with a threshold of one: the first request times out, and the service is CONNECTED with an open session, no version, no recovery and no request pending |
| ServiceTheorems.RecoverableErrorsNeverTearDown | src/services/android_auto/RealAndroidAutoService.cpp:7539-7619 | from CONNECTED any sequence of channel errors with a recoverable text, on any channels, leaves connection, session, readiness, decoder and mixer, requests and search untouched |
| ServiceTheorems.TimeoutsNeverDispatchWhileConnected | src/services/android_auto/RealAndroidAutoService.cpp:7610-7619 | so the transfer-timeout recovery path is unreachable while CONNECTED |
| ServiceTheorems.GraceWindowHolds | src/services/android_auto/RealAndroidAutoService.cpp:7565-7608 | in every run the error counter equals the number of non-control errors counted since the open window began, each within the window, and every escalation came after more than the maximum fell into one window |
| ServiceTheorems.PreHandshakeErrorDispatchIff | src/services/android_auto/RealAndroidAutoService.cpp:7565-7608 | before the handshake a non-control error is merely counted when fewer than the maximum have fallen into the open window (or a new one opens), and goes to the recovery dispatch otherwise |
| ErrorOutcomes.ErrorEndsConnectionIff | src/services/android_auto/RealAndroidAutoService.cpp:7539-7740 | in every reachable state a channel error ends the connection exactly when none of the three early returns takes it, it is not waited out by the no-device grace count, it is of a class that recovers and no recovery is under way: then the service is DISCONNECTED from CONNECTED or CONNECTING, its session is over and the recovery flag is up, and on the SSL branch the channels and request counters are gone too; in every other case connection, session, channels and requests go on as they were; an error that is not absorbed stops the stream it came from, announces the status and, once the handshake is under way, closes the grace window |
| TimeoutOutcomes.TimeoutsAreFatal | src/services/android_auto/RealAndroidAutoService.cpp:7562-7740 | outside teardown and recovery each timeout message of the service itself ends the connection, in every connection state |
| TimeoutOutcomes.WatchdogDecides | src/services/android_auto/RealAndroidAutoService.cpp:1435-1579 | in every reachable state a fired watchdog that may not act only goes; one that acts with its retries used up notes the one timeout of its response and, outside teardown and recovery, leaves the service DISCONNECTED with a recovery under way and the session over; one with a retry left keeps waiting with exactly one new pending watchdog, which can act, and a retry that throws is reported |
| TimeoutOutcomes.VersionResponseDecides | src/services/android_auto/RealAndroidAutoService.cpp:1370-1587 | in every reachable state a compatible version that was sent on resets the request counters and arms exactly one watchdog, which can act while the connection is up and discovery open; an incompatible one ends in ERROR without a session and ends the wait; a send that throws is reported |
| TimeoutOutcomes.HandshakeFaultReported | src/services/android_auto/RealAndroidAutoService.cpp:1589-1642 | a handshake answer that cannot be sent is reported as an error of the control channel |
| TimeoutOutcomes.RequestTimerDecides | src/services/android_auto/RealAndroidAutoService.cpp:5586-5644 | in every reachable state the timer of a chain sends exactly one request when it has something to send and the recovery window is open; once the window is over nothing is sent and, outside teardown and recovery, the connection and its session end |
| TimeoutOutcomes.SettlementDecides | src/services/android_auto/RealAndroidAutoService.cpp:5624-5740 | in every reachable state a settled request either leaves nothing, or one timer due after 300 ms or the retry delay, or a report that ends the connection if it is fatal |
| TimeoutOutcomes.RetryDelayGrows | src/services/android_auto/RealAndroidAutoService.cpp:5690-5712 | the retry delay is one to four times the configured base, growing with the attempts, and never more than five seconds |
| Observations.FirstRequestFollows | src/services/android_auto/RealAndroidAutoService.cpp:5211-5247 | a connection over a new control handler starts its request counters anew and either has exactly one new timer, due after the delay, or has sent its first request |
| Observations.ResetOutdates | src/services/android_auto/RealAndroidAutoService.cpp:7009-7042 | every reset of the projection status ends the wait for the handshake, forgets its retries and outdates its timers |
| TimeoutOutcomes.HandshakeAnswered | src/services/android_auto/RealAndroidAutoService.cpp:1589-1642 | an answered handshake message ends the wait and forgets the retries counted for it, and changes nothing else |
| ServiceTheorems.SearchGenerations | src/services/android_auto/RealAndroidAutoService.cpp:4251-4360 | in every reachable state at most one hub promise carries the current search generation, no generation attaches a device twice, and a generation whose promise is pending has not attached yet |
| ServiceTheorems.HubPromiseConnectsIff | src/services/android_auto/RealAndroidAutoService.cpp:4408-4550 | after a hub promise settles the service is CONNECTED if and only if it was already, or the promise carries the current generation, the service is SEARCHING and the device is in accessory mode; in every case but the last only the promise is used up |
| ServiceTheorems.StepIsReachable | src/services/android_auto/RealAndroidAutoService.cpp:4251-7899 | reachable states are closed under every enabled event |
| ErrorText.ClassifierInclusions | src/services/android_auto/AasdkErrorClassification.h:64-145 | on arbitrary strings USB timeouts and USB no-device errors are recoverable, and USB and SSL no-device errors are transport no-device errors |
| ErrorText.HasCodeMeaning | src/services/android_auto/AasdkErrorClassification.h:64-67 | on a canonical message the code test succeeds exactly when the decimal digits looked for are a prefix of those of the code |
| ErrorText.HasNativeMeaning | src/services/android_auto/AasdkErrorClassification.h:64-67 | the same for the signed native code |
| ErrorText.UsbTransferIsExactOnSmallCodes | src/services/android_auto/AasdkErrorClassification.h:64-67 | for codes below 100 and one-digit native codes the USB-transfer test means code 10 and that native code |
| ErrorText.UsbTransferMatchesPrefixes | src/services/android_auto/AasdkErrorClassification.h:64-67 | for all codes it means prefixes only: native code 10k + 1 is taken for k |
| ErrorText.SmallCodesMean | src/services/android_auto/AasdkErrorClassification.h:40-145 | on messages with AASDK codes below 100 and one-digit native codes every classifier means its codes: aborted is 30, a timeout 10 with native 2, no device native 5 with 10, 25, 26, 27, 28 or 33, SSL no device 25 with native 5, recoverable 10 with native 1, 2, 5 or -4 |
| ErrorText.SmallCodesClassify | src/services/android_auto/RealAndroidAutoService.cpp:7556-7564 | on such a message the channel-error handler derives exactly these classes, on every channel, and never a timeout of its own |
| ErrorText.TimeoutTextsAreTimeouts | src/services/android_auto/RealAndroidAutoService.cpp:7562-7623 | the timeout messages the service itself composes are classified as that timeout and as nothing else |
| ErrorText.OnlyControlTimesOut | src/services/android_auto/RealAndroidAutoService.cpp:7562-7623 | the same messages on any other channel belong to no class |
| AndroidAutoService.RealAndroidAutoService.constructor | src/services/android_auto/RealAndroidAutoService.cpp:2962-2991 | the object starts disconnected, in the initial state of every run |
| AndroidAutoService.RealAndroidAutoService.Dispatch | src/services/android_auto/RealAndroidAutoService.cpp:4251-7899 | handling any enabled event takes the object from one reachable state to the one the step function gives, so the theorems about runs hold of the object |
| AndroidAutoService.RealAndroidAutoService.IsProjectionReady | src/services/android_auto/RealAndroidAutoService.cpp:6444-6451 | true exactly when connected with version, discovery and (with video) all four video milestones; in a reachable object a true answer is justified by the history since the last reset |
| AndroidAutoService.RealAndroidAutoService.Disconnect | src/services/android_auto/RealAndroidAutoService.cpp:4639-4664 | from CONNECTED the service ends DISCONNECTED, the row of the session ended once and no session or heartbeat left; from CONNECTING it gives up; otherwise nothing changes; a reachable object stays reachable |
| AndroidAutoService.RealAndroidAutoService.OnChannelError | src/services/android_auto/RealAndroidAutoService.cpp:7539-7899 | from a reachable object the error ends the connection and its session, with a recovery under way, exactly when it is fatal, and otherwise the connection goes on; nothing changes during teardown; a recoverable error while CONNECTED leaves all but the handshake wait and the grace count alone; a control error ends the wait |
| AndroidAutoService.RealAndroidAutoService.OnVersionRequestSettled | src/services/android_auto/RealAndroidAutoService.cpp:5624-5740 | only chains that were pending are pending afterwards or send; the request leaves nothing, one timer due after its delay, or a report that ends the connection if it is fatal |
| AndroidAutoService.RealAndroidAutoService.OnRequestTimer | src/services/android_auto/RealAndroidAutoService.cpp:5586-5644 | the timer is used up and one request sent, or, past the recovery window, the connection ended; only chains that were pending are pending afterwards or send |
| AndroidAutoService.RealAndroidAutoService.StartSearching | src/services/android_auto/RealAndroidAutoService.cpp:4251-4360 | an initialised, DISCONNECTED service ends where its mode and the outcome lead (SEARCHING, CONNECTED or DISCONNECTED), any other keeps its state, session and requests; the handshake wait, the recovery flag and the no-device grace count end |
| AndroidAutoService.RealAndroidAutoService.StopSearching | src/services/android_auto/RealAndroidAutoService.cpp:4601-4616 | from SEARCHING to DISCONNECTED, otherwise nothing changes |
| AndroidAutoService.RealAndroidAutoService.OnHubStartTimer | src/services/android_auto/RealAndroidAutoService.cpp:4347-4359 | a search without AASDK ends DISCONNECTED; with it, hub detection is on, with one more promise, of the current generation, if it was off; outside SEARCHING state, session and requests stay |
| AndroidAutoService.RealAndroidAutoService.OnHubPromise | src/services/android_auto/RealAndroidAutoService.cpp:4408-4550 | a promise of the current generation for an accessory device connects a SEARCHING service, with an active session; any other uses up only itself |
| AndroidAutoService.RealAndroidAutoService.OnDeviceScanned | src/services/android_auto/RealAndroidAutoService.cpp:5952-5999 | a scanned accessory device connects a SEARCHING service, with an active session; otherwise nothing changes |
| AndroidAutoService.RealAndroidAutoService.OnVersionResponse | src/services/android_auto/RealAndroidAutoService.cpp:1370-1587 | an incompatible version ends in ERROR without a session; a compatible one, once sent on, is awaited under one new watchdog with the request counters reset; a failure to send it on is reported; without a control channel nothing changes |
| AndroidAutoService.RealAndroidAutoService.OnHandshake | src/services/android_auto/RealAndroidAutoService.cpp:1589-1642 | with a control channel no watchdog can act any more, and an answer that cannot be sent is reported |
| AndroidAutoService.RealAndroidAutoService.OnServiceDiscoveryRequest | src/services/android_auto/RealAndroidAutoService.cpp:1644-1746 | discovery is noted and announced, readiness only when justified, and no watchdog can act any more |
| AndroidAutoService.RealAndroidAutoService.OnWatchdogTimer | src/services/android_auto/RealAndroidAutoService.cpp:1446-1579 | something beyond the timer changes if and only if the watchdog could act; then it either gives up, which outside teardown and recovery ends the connection, or waits on with one new watchdog that can act |
| AndroidAutoService.RealAndroidAutoService.OnVideoChannelOpenRequest | src/services/android_auto/RealAndroidAutoService.cpp:1959-1980 | the milestone is reached, the status announced as it is, and readiness only when justified |
| AndroidAutoService.RealAndroidAutoService.OnVideoSetupRequest | src/services/android_auto/RealAndroidAutoService.cpp:1982-2007 | the same for the configured stream |
| AndroidAutoService.RealAndroidAutoService.OnVideoStartIndication | src/services/android_auto/RealAndroidAutoService.cpp:2009-2019 | the same for the started stream |
| AndroidAutoService.RealAndroidAutoService.OnVideoStopIndication | src/services/android_auto/RealAndroidAutoService.cpp:2021-2036 | start and frame are forgotten and the status announced |
| AndroidAutoService.RealAndroidAutoService.OnMediaAudioIndication | src/services/android_auto/RealAndroidAutoService.cpp:2279-2310 | the stream state is recorded and the status announced |
| AndroidAutoService.RealAndroidAutoService.OnVideoChannelUpdate | src/services/android_auto/RealAndroidAutoService.cpp:7255-7402 | a frame has been received if and only if one was before or this one counts in the current mode; the first is announced unless passed through |
| AndroidAutoService.RealAndroidAutoService.OnRecoveryRestart | src/services/android_auto/RealAndroidAutoService.cpp:7751-7888 | while SEARCHING only the recovery flag falls; otherwise no handshake is awaited; a plain restart of an initialised service ends where a search leads; after a control timeout the control channel, the request counters and, on a full restart, the stack are gone, teardown is on and the state unchanged |
| AndroidAutoService.RealAndroidAutoService.OnRecoveryReinit | src/services/android_auto/RealAndroidAutoService.cpp:7830-7872 | while SEARCHING nothing changes; a failed set-up ends in ERROR without a session; an initialised, DISCONNECTED service otherwise ends where a search leads |
| AndroidAutoService.RealAndroidAutoService.OnImmediateRestart | src/services/android_auto/RealAndroidAutoService.cpp:4184-4192 | a DISCONNECTED service searches again, and no handshake is awaited |
| AndroidAutoService.RealAndroidAutoService.OnIdleRecovery | src/services/android_auto/RealAndroidAutoService.cpp:6797-6815 | a CONNECTED service disconnects, flagged against a second recovery; otherwise nothing changes |
| AndroidAutoService.RealAndroidAutoService.OnIdleTeardown | src/services/android_auto/RealAndroidAutoService.cpp:6815-6845 | only while DISCONNECTED the stack, the channels and the request counters go and teardown is on; the state stays |
| AndroidAutoService.RealAndroidAutoService.OnIdleReinit | src/services/android_auto/RealAndroidAutoService.cpp:6845-6874 | the recovery flag falls; a failed set-up ends in ERROR without a session; a search under way goes on; an initialised, DISCONNECTED service ends where a search leads |
| AndroidAutoService.RealAndroidAutoService.Initialise | src/services/android_auto/RealAndroidAutoService.cpp:3154-3177 | initialised if it was or the set-up works, then DISCONNECTED without a session; a second call changes nothing |
| AndroidAutoService.RealAndroidAutoService.Deinitialise | src/services/android_auto/RealAndroidAutoService.cpp:3179-3194 | DISCONNECTED, without session, stack or channels, while pending requests stay as they were |
| AndroidAutoService.RealAndroidAutoService.ConnectToDevice | src/services/android_auto/RealAndroidAutoService.cpp:4618-4637 | CONNECTING from any state, if initialised and the device is known, with the session negotiating and no heartbeat |
| AndroidAutoService.RealAndroidAutoService.HandleDeviceRemoved | src/services/android_auto/RealAndroidAutoService.cpp:5016-5020 | a CONNECTED service disconnects and its session is over; any other is untouched |
| AndroidAutoService.RealAndroidAutoService.HandleConnectionLost | src/services/android_auto/RealAndroidAutoService.cpp:5548-5553 | the service is not CONNECTED and awaits no handshake |
| AndroidAutoService.RealAndroidAutoService.OnTcpAccepted | src/services/android_auto/RealAndroidAutoService.cpp:3373-3391 | a pending accept that completes connects in any state, with a heartbeat exactly when the service was not CONNECTED; one that fails ends DISCONNECTED without a session |
| AndroidAutoService.RealAndroidAutoService.OnHeartbeatTimer | src/services/android_auto/RealAndroidAutoService.cpp:7241-7253 | while the heartbeat runs exactly one beat is written, for the current row; otherwise nothing changes |
| H264.ContainsVclNal | src/services/android_auto/RealAndroidAutoService.cpp:115-134 | on arbitrary bytes the scan answers true exactly when some start code is followed by a header of type 1 to 5 |
| H264.NalTypeSummary | src/services/android_auto/RealAndroidAutoService.cpp:136-156 | on arbitrary bytes the summary is the duplicate-free list of header types in order of first occurrence |
| H264.FourByteBranchIsRedundant | src/services/android_auto/RealAndroidAutoService.cpp:115-134 | the four-byte start-code branch finds no header the three-byte branch would miss |
| H264.VclIffSummaryHasVcl | src/services/android_auto/RealAndroidAutoService.cpp:115-156 | the slice test succeeds exactly when the summary contains a type from 1 to 5 |
| H264.DistinctMeaning | src/services/android_auto/RealAndroidAutoService.cpp:136-156 | the summary has the same members as the header types, each once |
| H264.DistinctOrder | src/services/android_auto/RealAndroidAutoService.cpp:136-156 | the summary of a longer stream extends that of its beginning: first occurrences keep their order |
| H264.ScanRecoversUnits | src/services/android_auto/RealAndroidAutoService.cpp:115-156 | for any list of well-formed units with three- or four-byte start codes (Annex B of ITU-T H.264) the types found are exactly those of the units, in order |
| H264.HeadersAreUnitStarts | src/services/android_auto/RealAndroidAutoService.cpp:115-156 | and a header stands at a position of the stream if and only if a unit begins there |
| H264.StartsAreFirstBytes | src/services/android_auto/RealAndroidAutoService.cpp:115-156 | the byte at that position is the first byte of the unit |
| H264.VclIffSliceUnit | src/services/android_auto/RealAndroidAutoService.cpp:115-134 | so the slice test is true exactly when some unit is of type 1 to 5 |
| Framing.ChunkedFeedIsWholeScanIff | src/hal/functional/CANDevice.cpp:149-215 | feeding chunk by chunk equals one scan of the whole stream if and only if no chunk leaves an unterminated tail of more than 4096 bytes |
| Framing.ChunkingIndependence | src/hal/functional/GPSDevice.cpp:109-165 | two such chunkings of one stream give the same frames and the same buffer, also with a delimiter split between chunks |
| Framing.BufferStaysClean | src/hal/functional/GPSDevice.cpp:109-165 | after every arrival, whatever the chunks, the buffer holds no complete delimiter and at most 4096 bytes |
| Framing.LongTailIsLost | src/hal/functional/GPSDevice.cpp:158-164 | the bound matters: a line longer than 4096 bytes is delivered or replaced by an empty one depending on where the chunk ends |
| Framing.LongLineIsLost | src/hal/functional/GPSDevice.cpp:158-164 | for example any line of more than 4096 equal bytes that do not occur in the delimiter |
| Framing.SplitScan | src/hal/functional/GPSDevice.cpp:125-156 | cutting the input anywhere gives the same frames and tail |
| Framing.ScanRejoins | src/hal/functional/GPSDevice.cpp:125-156 | no byte is lost or moved: the frames, each followed by its delimiter, and then the tail are the buffer |
| Slcan.SlcanEndToEnd | src/hal/functional/CANDevice.cpp:105-126 | for every list of transmissible messages, encoded, concatenated and cut into any chunks, the parser emits exactly that list, ends with an empty buffer, and never clears it |
| Slcan.FrameRoundTripIff | src/hal/functional/CANDevice.cpp:165-215 | a message comes back from its own encoding exactly when its id has at most three hexadecimal digits and its payload at most fifteen bytes |
| Slcan.StandardIsTransmissible | src/hal/functional/CANDevice.cpp:105-126 | standard data frames (id up to 0x7FF, up to eight bytes) are among them |
| Slcan.WireForm | src/hal/functional/CANDevice.cpp:105-126 | on the wire a transmissible message is t, three hexadecimal digits of id, the number of bytes, two digits a byte, and a carriage return |
| Slcan.ExtendedFrame | src/hal/functional/CANDevice.cpp:165-200 | a frame that begins with T decodes to an extended message with the value of its eight id digits and the bytes its length digit announces, whatever follows |
| Slcan.HexDataRoundTrip | src/hal/functional/CANDevice.cpp:112-122 | fromHex undoes toHex on every byte string |
| CanDevice.CANDevice.SendMessage | src/hal/functional/CANDevice.cpp:105-126 | the bytes written are the encoding of the message, and the answer says whether all were accepted |
| CanDevice.CANDevice.OnTransportDataReceived | src/hal/functional/CANDevice.cpp:149-163 | an arrival feeds the framer: what is emitted and kept is what the whole-stream semantics gives |
| CanDevice.CANDevice.ParseCANData | src/hal/functional/CANDevice.cpp:165-215 | the scanning loop emits exactly the decodable frames in order, keeps the tail, and clears a tail of more than 4096 bytes |
| GpsDevice.GPSDevice.OnTransportDataReceived | src/hal/functional/GPSDevice.cpp:109-123 | an arrival feeds the line framer, empty arrivals included |
| GpsDevice.GPSDevice.ParseNMEA | src/hal/functional/GPSDevice.cpp:125-165 | the loop announces one location per GGA sentence, keeps the tail, and clears a tail of more than 4096 bytes |
| GpsDevice.UpdatesDependOnStream | src/hal/functional/GPSDevice.cpp:125-165 | as long as no chunk leaves a tail of more than 4096 bytes, the number of location updates depends on the byte stream only, not on how it was cut |
| GpsDevice.GgaIs | src/hal/functional/GPSDevice.cpp:125-165 | a GGA sentence is one that, trimmed, begins with $GPGGA or $GNGGA |
| GpsDevice.TrimmedIs | src/hal/functional/GPSDevice.cpp:125-165 | trimming leaves the stretch of a line between its outer blanks |
| FormatConversion.Resample | src/hal/multimedia/AudioMixer.cpp:365-404 | the loops read and write in range and produce floor(frames * outRate / inRate) frames, each the truncated linear interpolation of its channel at position i * inRate / outRate, the last input frame held; equal rates change nothing |
| FormatConversion.ResampledInterpolates | src/hal/multimedia/AudioMixer.cpp:365-404 | the resampled block is that interpolation at every sample, stated over the input alone |
| FormatConversion.ResampleSample | src/hal/multimedia/AudioMixer.cpp:385-399 | the loop body in reals gives the integer interpolation that ResampledInterpolates identifies as the truncated real one |
| FormatConversion.SourceInRange | src/hal/multimedia/AudioMixer.cpp:380-392 | every source frame index lies inside the input |
| FormatConversion.ResampledBetweenNeighbours | src/hal/multimedia/AudioMixer.cpp:365-404 | every output sample lies between its two neighbouring source samples of the same channel |
| FormatConversion.UpsamplingKeepsFrames | src/hal/multimedia/AudioMixer.cpp:365-404 | for an integer factor m, output frame k * m is source frame k |
| FormatConversion.DownsamplingPicksFrames | src/hal/multimedia/AudioMixer.cpp:365-404 | dividing the rate by m picks every m-th frame |
| FormatConversion.ConvertFormat | src/hal/multimedia/AudioMixer.cpp:311-363 | rate first, at the incoming number of channels, then mono to stereo or stereo to mono as those are meant, and nothing for other channel counts |
| FormatConversion.MonoToStereo | src/hal/multimedia/AudioMixer.cpp:322-340 | both samples of each output pair are the mono sample, in order |
| FormatConversion.StereoToMono | src/hal/multimedia/AudioMixer.cpp:341-359 | every output sample is the mean of its pair rounded toward zero, in order, and a broken pair is dropped |
| FormatConversion.ConversionKeepsWholeFrames | src/hal/multimedia/AudioMixer.cpp:311-404 | whole input frames become whole output frames |
| FormatConversion.FormatRoundTrip | src/hal/multimedia/AudioMixer.cpp:311-404 | 16-bit mono at rate r, to stereo at any integer multiple m * r and back, is unchanged |
| Pcm.SamplesOfBytes | src/hal/multimedia/AudioMixer.cpp:246-267 | reading a buffer as samples undoes writing it |
| Pcm.BytesOfSamples | src/hal/multimedia/AudioMixer.cpp:246-267 | and conversely, but for an odd last byte |
| Pcm.LittleEndian | src/hal/multimedia/AudioMixer.cpp:246-267 | a sample is written low byte first in two's complement |
| Mixing.SaturationKeepsCastsDefined | src/hal/multimedia/AudioMixer.cpp:255-266 | with a volume in 0..1 every intermediate value is cast inside the 16-bit range, in-range sums pass unchanged, and clipped sums keep their sign with magnitude at least 16383 |
| Mixing.SaturationFoldsBack | src/hal/multimedia/AudioMixer.cpp:287-309 | saturation is not monotone: beyond full scale a larger sum gives a smaller output |
| Mixing.QuietMixIsAccurate | src/hal/multimedia/AudioMixer.cpp:246-267 | if the absolute contributions sum to at most 32767, nothing clips and the result is within k of the exact sum of k contributions |
| Mixing.FullVolumeMixIsExact | src/hal/multimedia/AudioMixer.cpp:246-267 | with all volumes 1 the result is the exact sum |
| Mixing.QuietOrdersAgreeClosely | src/hal/multimedia/AudioMixer.cpp:234-244 | whatever order the sort leaves, a quiet mix of k contributions is within k of the same exact sum |
| Mixing.FullVolumeMixIgnoresOrder | src/hal/multimedia/AudioMixer.cpp:234-267 | with all volumes 1 every order of a quiet mix gives the same sample |
| Mixing.QuietMixDependsOnOrder | src/hal/multimedia/AudioMixer.cpp:234-267 | below full volume the order can matter however quiet the mix: two orders of the contributions 1.5 and -0.7 give 0 and 1 |
| Mixing.LoudMixDependsOnOrder | src/hal/multimedia/AudioMixer.cpp:234-267 | with clipping the order can matter even at full volume: an example whose two orders mix differently |
| Mixing.SilentContributionIsNeutral | src/hal/multimedia/AudioMixer.cpp:246-267 | a contribution of volume 0 changes nothing wherever it stands |
| MixerState.SecondFilterKeepsParticipants | src/hal/multimedia/AudioMixer.cpp:231-244 | the second size filter selects exactly the channels counted in the minimum |
| MixerState.EmissionDrainsEqually | src/hal/multimedia/AudioMixer.cpp:270-279 | every channel that held data, muted or not, gives up exactly the emitted length and keeps the rest in order |
| MixerState.WholeFrameProgress | src/hal/multimedia/AudioMixer.cpp:201-285 | with whole-frame queues a pass emits the shortest queue entirely and leaves that channel empty and inactive |
| MixerState.WholeFramesNeverStall | src/hal/multimedia/AudioMixer.cpp:201-229 | with whole-frame queues a pass that emits nothing found every queue empty |
| MixerState.MutingIsZeroVolume | src/hal/multimedia/AudioMixer.cpp:246-254 | a muted channel mixes like one of volume 0 |
| MixerState.QuietBlockIsAccurate | src/hal/multimedia/AudioMixer.cpp:231-267 | every sample of an emitted block in which nothing can clip is within k of the exact sum, in any priority order, and the same in all of them at full volume |
| MixerState.ColumnPermutes | src/hal/multimedia/AudioMixer.cpp:234-244 | sorting changes the order of the contributions, not the contributions |
| MixerState.HighestPriorityFirst | src/hal/multimedia/AudioMixer.cpp:242-244 | the first channel mixed has the highest priority, the last the lowest |
| MixedSound.EmittedBlockSounds | src/hal/multimedia/AudioMixer.cpp:231-267 | each sample of an emitted block is zero when no channel is heard or the master volume is zero, exactly the truncated product sample * channel volume * master volume when one is, and within k of the exact sum of those products over the k channels heard when they cannot clip |
| AudioMixer.Mixer.constructor | src/hal/multimedia/AudioMixer.cpp:20-35 | an empty mixer at volume 0.75 |
| AudioMixer.Mixer.Initialize | src/hal/multimedia/AudioMixer.cpp:37-52 | only the first call sets the master format |
| AudioMixer.Mixer.Deinitialize | src/hal/multimedia/AudioMixer.cpp:54-65 | all channels are dropped; volume and format stay |
| AudioMixer.Mixer.AddChannel | src/hal/multimedia/AudioMixer.cpp:67-93 | an existing channel is left alone; a new one starts empty and inactive with its volume as given, so that the mixer stays in order exactly if that volume lies in 0..1 |
| AudioMixer.Mixer.RemoveChannel | src/hal/multimedia/AudioMixer.cpp:95-108 | exactly that channel goes |
| AudioMixer.Mixer.MixAudioData | src/hal/multimedia/AudioMixer.cpp:110-141 | over all calls mixed bytes followed by the queue are the in-order concatenation of the converted inputs of each channel; a call emits one mixed block, which sounds as MixedSound.EmittedBlockSounds says, or nothing; whole-frame inputs keep whole-frame queues, and then the shortest queue goes out entirely or everything was empty |
| AudioMixer.Mixer.MixBuffers | src/hal/multimedia/AudioMixer.cpp:201-285 | one pass: the common prefix in whole frames, mixed in priority order, removed from every participating queue, and sounding by channel and master volume as MixedSound.EmittedBlockSounds says |
| AudioMixer.Mixer.SetChannelVolume | src/hal/multimedia/AudioMixer.cpp:143-157 | the stored volume is clamped to 0..1 |
| AudioMixer.Mixer.GetChannelVolume | src/hal/multimedia/AudioMixer.cpp:159-167 | 0 for an unknown channel |
| AudioMixer.Mixer.SetChannelMuted | src/hal/multimedia/AudioMixer.cpp:169-182 | only the mute flag of that channel changes |
| AudioMixer.Mixer.IsChannelMuted | src/hal/multimedia/AudioMixer.cpp:184-192 | an unknown channel counts as muted |
| AudioMixer.Mixer.SetMasterVolume | src/hal/multimedia/AudioMixer.cpp:194-199 | the stored volume is clamped to 0..1 |
| AudioMixer.FindShortest | src/hal/multimedia/AudioMixer.cpp:202-215 | the shortest non-empty active queue, or none |
| AudioMixer.SelectChannels | src/hal/multimedia/AudioMixer.cpp:234-240 | each channel that passes the size filter, once |
| AudioMixer.SortByPriority | src/hal/multimedia/AudioMixer.cpp:242-244 | the same channels by descending priority |
| AudioMixer.MixSamples | src/hal/multimedia/AudioMixer.cpp:246-268 | sample i of the block is the saturated running sum of the contributions of the unmuted channels in order, whose meaning MixedSound.EmittedBlockSounds gives |
| AudioMixer.MixChannel | src/hal/multimedia/AudioMixer.cpp:250-266 | in place, each sample of the block becomes the truncated saturation of itself plus sample * (channel volume * master volume), and every cast is defined |
| AudioMixer.RemoveMixed | src/hal/multimedia/AudioMixer.cpp:270-279 | the prefix is cut off, and an emptied channel becomes inactive |
| AudioMixer.WholeFramePass | src/hal/multimedia/AudioMixer.cpp:110-141 | after every call with whole-frame input the queues are whole frames again, and the shortest queue is drained or everything is empty |

## Left out

- AASDK, protobuf messages, libusb, Boost.Asio, GStreamer and the decoder: their results are parameters of events.
- The AOAP query chain, device scanning and its slow-down: only the opened accessory device is an event.
- Idle-watchdog nudges and the limits on idle recoveries; the recovery's own three timers are events.
- The counters and configuration that choose between soft and full reinitialisation after a control timeout: both choices are possible in every such recovery.
- Which receives are armed, including what re-arming does to each channel.
- Telemetry, the decode backlog estimate (whose counter is bumped twice per frame), traces, logging and the JSON of the status beyond projection_ready.
- Audio readiness and the audio flags other than the media stream's start, which do not enter projection readiness; and the further publications of the status at audio set-up, at the first audio frame and when WebRTC falls back.
- Mutexes, Qt threads, destructors, and signals to other components.
- The device rows of the session store, event-bus messages and failures of the store.
- Remote and FD CAN frames, and signs, blanks or a 0x prefix in hexadecimal numbers, which the parser of Qt would accept.
- NMEA fields: the source announces a fixed satellite count for every GGA sentence.
- Sample formats other than 16 bits, channel counts other than one and two in conversions, and rounding of float.
- The joining of the NAL summary into a string.
- AndroidAutoService.RealAndroidAutoService.OnChannelError: re-arming the receives after a recoverable error is not represented, because no modelled field depends on it.
- AudioMixer.SortByPriority: an insertion sort stands for std::sort; results about mixing use only that the order is by descending priority.
- AudioMixer.Mixer.MixAudioData: queues are sequences held in a map, so aliasing of QByteArray buffers is not represented; the mixing buffer itself is an array updated in place.
