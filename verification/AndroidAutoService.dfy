/**
 RealAndroidAutoService as the object it is: handlers that update its fields. Every handler is
 proved against the function of ServiceSteps or ServiceEvents that specifies it, and Dispatch,
 the event loop's view of the object, against Step; so whatever is proved of runs holds of the
 object. The fields are grouped by concern; beside the members of the source they hold what
 lives outside the object (pending timers and promises, the session store) and the histories.
 */
module AndroidAutoService {
  import opened Bytes
  import opened ErrorText
  import opened ServiceState
  import opened Wrappers
  import opened ServiceInvariants
  import opened ServiceTheorems
  import opened ErrorOutcomes
  import opened Observations
  import opened TimeoutOutcomes
  import HandshakeQuiet
  import RequestChains
  import SessionRows
  import Steps = ServiceSteps
  import Events = ServiceEvents
  import H264

  class RealAndroidAutoService {
    const cfg: Config
    var clock: nat
    var isInitialised: bool
    var hasAasdk: bool
    var state: ConnectionState
    var teardownInProgress: bool
    var deviceGoneRecoveryScheduled: bool
    var hasControlChannel: bool
    var hasControlEventHandler: bool
    var hasMediaPipeline: bool
    var session: Sessions
    var projection: Projection
    var handshake: Handshake
    var requests: Requests
    var search: Search
    var grace: Grace

    ghost function View(): Service
      reads this
    {
      Service(clock, isInitialised, hasAasdk, state, teardownInProgress, deviceGoneRecoveryScheduled,
              hasControlChannel, hasControlEventHandler, hasMediaPipeline,
              session, projection, handshake, requests, search, grace)
    }

    /** The object is where some run leads, so everything proved of runs is true of it. */
    ghost predicate Valid()
      reads this
    {
      Reachable(cfg, View())
    }

    constructor (cfg: Config, now: nat)
      requires ValidConfig(cfg) && now > 0
      ensures this.cfg == cfg && Valid() && View() == Events.Initial(cfg, now)
    {
      this.cfg := cfg;
      clock, isInitialised, hasAasdk, state := now, false, false, Disconnected;
      teardownInProgress, deviceGoneRecoveryScheduled := false, false;
      hasControlChannel, hasControlEventHandler, hasMediaPipeline := false, false, false;
      session := Sessions(Ended, None, false, 0, NoWrites);
      projection := Projection(false, false, false, false, false, false, false, NoNotes);
      handshake := Handshake(false, 0, 0, {}, 0, NoHandshake);
      requests := Requests(0, 0, 0, 0, 0, {}, NoSends);
      search := Search(0, false, 0, {}, 0, NoAttachments, 0);
      grace := Grace(0, 0, 0, NoGrace);
      new;
      hide Steps.ResetProjection, Reachable;
      ResetProjectionStatus(false);
      InitialIsReachable(cfg, now);
    }

    // ----- sessions -----

    method EndCurrentSession()
      modifies `session
      ensures session == Steps.EndCurrent(old(session))
    {
      if session.current.None? {
        return;
      }
      session := session.(heartbeat := false);
      session := session.(log := Write(session.log, EndRow(session.current.value)));
      session := session.(current := None);
    }

    method UpdateSessionHeartbeat()
      modifies `session
      ensures session == Steps.Heartbeat(old(session))
    {
      if session.current.None? {
        return;
      }
      if session.state == Active {
        session := session.(log := Write(session.log, Beat(session.current.value)));
      }
    }

    method CreateSessionForDevice()
      modifies `session
      ensures session == Steps.CreateSession(old(session))
    {
      hide Steps.EndCurrent;
      EndCurrentSession();
      var id := session.nextId;
      session := session.(current := Some(id), nextId := id + 1);
      session := session.(log := Write(session.log, CreateRow(id)));
    }

    method TransitionToSessionState(next: SessionState)
      modifies `session
      ensures session == Steps.EnterSession(old(session), next)
    {
      hide Steps.EndCurrent, Steps.Heartbeat;
      if session.state == next {
        return;
      }
      session := session.(state := next);
      if session.current.Some? {
        session := session.(log := Write(session.log, UpdateRow(session.current.value, next)));
      }
      if next == Active && !session.heartbeat {
        session := session.(heartbeat := true);
        UpdateSessionHeartbeat();
      } else if next != Active && session.heartbeat {
        session := session.(heartbeat := false);
      }
      if next == Ended || next == Errored {
        EndCurrentSession();
      }
    }

    // ----- projection status and connection state -----

    /** In a reachable state readiness is justified by what happened since the last reset. */
    method IsProjectionReady() returns (ready: bool)
      ensures ready == Steps.Ready(cfg, state, projection)
      ensures Valid() && ready ==> Justified(cfg, projection.notes)
    {
      ready := ProjectionReady();
      hide Steps.Ready, Justified, Reachable;
      if Valid() {
        ReadinessProvenance(cfg, View());
      }
    }

    method ProjectionReady() returns (ready: bool)
      ensures ready == Steps.Ready(cfg, state, projection)
    {
      if state != Connected || !projection.version || !projection.discovery {
        return false;
      }
      if !cfg.videoEnabled {
        return true;
      }
      return projection.channelOpen && projection.configured && projection.started && projection.frame;
    }

    method PublishProjectionStatus()
      modifies `projection
      ensures View() == Steps.Publish(cfg, old(View()))
    {
      hide Steps.Ready;
      var ready := ProjectionReady();
      projection := projection.(notes := Noted(projection.notes, PublishedNote(ready)));
    }

    method ResetProjectionStatus(established: bool)
      modifies this
      ensures View() == Steps.ResetProjection(cfg, old(View()), established)
    {
      hide Steps.Publish;
      projection := projection.(version := false, discovery := false);
      projection := projection.(channelOpen := false, configured := false, started := false, frame := false);
      projection := projection.(audioStarted := false, notes := Noted(projection.notes, ResetNote(established)));
      grace := grace.(noDevice := 0);
      OutdateHandshake();
      PublishProjectionStatus();
    }

    /** The lines resetProjectionStatus and onChannelError share. */
    method OutdateHandshake()
      modifies this
      ensures View() == Steps.OutdateWait(old(View()))
    {
      handshake := handshake.(awaiting := false);
      handshake := handshake.(epoch := handshake.epoch + 1);
      handshake := handshake.(retries := 0, log := Happened(handshake.log, Cleared));
    }

    method TransitionToState(next: ConnectionState)
      modifies this
      ensures View() == Steps.TransitionTo(cfg, old(View()), next)
    {
      hide Steps.Publish, Steps.FollowConnection;
      if state == next {
        return;
      }
      state := next;
      PublishProjectionStatus();
      FollowConnectionState();
    }

    /** The part of transitionToState that maps the connection state to a session state. */
    method FollowConnectionState()
      modifies `session
      ensures session == Steps.FollowConnection(old(session), state)
    {
      hide Steps.EnterSession;
      match state {
        case Connecting => TransitionToSessionState(Negotiating);
        case Authenticating => TransitionToSessionState(Negotiating);
        case Securing => TransitionToSessionState(Negotiating);
        case Connected => TransitionToSessionState(Active);
        case Disconnected =>
          if session.state == Active || session.state == Negotiating {
            TransitionToSessionState(Ended);
          }
        case Failed => TransitionToSessionState(Errored);
        case Searching =>
        case Disconnecting =>
      }
    }

    // ----- connecting and disconnecting -----

    method Disconnect()
      modifies this
      ensures old(Valid()) ==> Valid()
      ensures old(Valid()) && old(state) == Connected ==> state == Disconnected && SessionOver(old(session), session)
      ensures old(Valid()) && old(state) == Connecting ==> state == Disconnected && NoSession(session)
      ensures old(Valid()) && old(state) != Connected && old(state) != Connecting ==> View() == old(View())
      ensures View() == Steps.Disconnect(cfg, old(View()))
    {
      hide Steps.TransitionTo, Steps.ResetProjection, Reachable;
      if Valid() {
        StepIsReachable(cfg, View(), Events.Called(Events.DisconnectCall));
        DisconnectObserved(cfg, View());
        DisconnectIsReachable(cfg, View());
        ReachableFits(cfg, Steps.Disconnect(cfg, View()));
      }
      if state != Connected && state != Connecting {
        return;
      }
      TransitionToState(Disconnecting);
      ResetProjectionStatus(false);
      TransitionToState(Disconnected);
    }

    method CleanupChannels()
      modifies this
      ensures View() == Steps.CleanupChannels(cfg, old(View()))
    {
      hide Steps.ResetProjection;
      teardownInProgress := true;
      hasMediaPipeline, hasControlChannel, hasControlEventHandler := false, false, false;
      ResetProjectionStatus(false);
    }

    method CleanupAASDK()
      modifies this
      ensures View() == Steps.CleanupAasdk(cfg, old(View()))
    {
      hide Steps.CleanupChannels;
      CleanupChannels();
      hasAasdk := false;
    }

    /** ok: whether every AASDK object could be created. */
    method SetupAASDK(ok: bool)
      modifies this
      ensures View() == Steps.SetupAasdk(old(View()), ok)
    {
      teardownInProgress := false;
      if ok {
        hasAasdk := true;
      }
    }

    /** setup: how far the channels could be created. */
    method SetupChannels(setup: Steps.Setup)
      modifies this
      ensures View() == Steps.SetupChannels(old(View()), setup)
    {
      if setup.NotBuilt? {
        return;
      }
      hasControlChannel := true;
      if setup.ControlOnly? {
        return;
      }
      hasMediaPipeline := true;
      teardownInProgress := false;
    }

    // ----- error handling -----

    method ForgetVersionRequests()
      modifies `requests
      ensures requests == Steps.ResetRequests(old(requests))
    {
      requests := requests.(attempts := 0, first := 0, window := requests.window + 1);
    }

    method PerformImmediateTransportRecovery()
      modifies this
      ensures View() == Steps.ImmediateRecovery(cfg, old(View()))
    {
      hide Steps.TransitionTo, Steps.CleanupChannels, Steps.Disconnect, Steps.ResetRequests;
      if deviceGoneRecoveryScheduled {
        return;
      }
      deviceGoneRecoveryScheduled := true;
      search := search.(hubStarted := false);
      ForgetVersionRequests();
      Disconnect();
      CleanupChannels();
      TransitionToState(Disconnected);
    }

    /** The pre-handshake grace window of onChannelError. */
    method CountPreHandshakeError() returns (tolerated: bool)
      modifies this
      ensures View() == Steps.CountPreHandshake(cfg, old(View()))
      ensures tolerated == (grace.errors <= cfg.graceMaxErrors)
    {
      if grace.start == 0 || clock - grace.start > cfg.graceWindowMs {
        grace := grace.(start := clock, errors := 0, log := Recorded(grace.log, WindowOpened(clock)));
      }
      grace := grace.(errors := grace.errors + 1, log := Recorded(grace.log, CountedError(clock)));
      tolerated := grace.errors <= cfg.graceMaxErrors;
    }

    /** onChannelError from where a recoverable error has been sorted out up to the status report. */
    method NoteError(source: Steps.Source)
      modifies this
      ensures View() == Steps.NoteError(cfg, old(View()), source)
    {
      hide Steps.Publish, Steps.StopStream;
      if source == Steps.Control || projection.version || projection.discovery {
        grace := grace.(errors := 0, start := 0, log := Recorded(grace.log, Forgotten));
      }
      StopStream(source);
      PublishProjectionStatus();
    }

    method StopStream(source: Steps.Source)
      modifies `projection
      ensures projection == Steps.StopStream(old(projection), source)
    {
      if source == Steps.Video {
        projection := projection.(started := false, notes := Noted(projection.notes, VideoErrorNote));
      } else if source == Steps.MediaAudio {
        projection := projection.(audioStarted := false);
      }
    }

    /** The recovery dispatch of onChannelError. */
    method Recover(cls: ErrorClass)
      modifies this
      ensures View() == Steps.Recover(cfg, old(View()), cls)
    {
      hide Steps.ImmediateRecovery, Steps.Disconnect;
      var preStart := projection.discovery && !projection.started && !projection.audioStarted;
      if cls.noDevice && preStart && grace.noDevice < cfg.noDeviceGraceMax && !deviceGoneRecoveryScheduled {
        grace := grace.(noDevice := grace.noDevice + 1);
        return;
      }
      if cls.timeout || cls.noDevice || cls.versionTimeout || cls.handshakeTimeout || cls.aborted {
        if cls.sslNoDevice {
          PerformImmediateTransportRecovery();
          return;
        }
        if !deviceGoneRecoveryScheduled {
          deviceGoneRecoveryScheduled := true;
          Disconnect();
        }
      }
    }

    method OnChannelError(source: Steps.Source, text: string)
      modifies this
      ensures old(Valid()) ==> Valid()
      ensures old(teardownInProgress) ==> View() == old(View())
      ensures old(state) == Connected && IsRecoverableUsbReceive(text) ==> Undisturbed(old(View()), View())
      ensures source == Steps.Control && !old(teardownInProgress) ==> !handshake.awaiting
      ensures old(Valid()) ==>
        ErrorOutcome(cfg, old(View()), View(), source, Classify(source == Steps.Control, text))
      ensures View() == Steps.ChannelError(cfg, old(View()), source, Classify(source == Steps.Control, text))
    {
      hide Classify, Reachable, ErrorOutcome;
      if Valid() {
        StepIsReachable(cfg, View(), Events.CalledBack(Events.ErrorReported(source, text)));
        ErrorEndsConnectionIff(cfg, View(), source, Classify(source == Steps.Control, text));
      }
      ChannelErrorObserved(cfg, View(), source, text);
      hide Steps.ChannelError;
      HandleChannelError(source, text);
    }

    method HandleChannelError(source: Steps.Source, text: string)
      modifies this
      ensures View() == Steps.ChannelError(cfg, old(View()), source, Classify(source == Steps.Control, text))
    {
      hide Classify, Steps.NoteError, Steps.Recover, Steps.OutdateWait, Steps.CountPreHandshake;
      if teardownInProgress {
        return;
      }
      var cls := Classify(source == Steps.Control, text);
      if source == Steps.Control {
        OutdateHandshake();
      } else if state == Connected && !projection.version && !projection.discovery {
        var tolerated := CountPreHandshakeError();
        if tolerated {
          return;
        }
        grace := grace.(log := Recorded(grace.log, Escalated(clock)));
      }
      if cls.recoverable && state == Connected {
        // The receives are re-armed, which touches nothing modelled here.
        return;
      }
      NoteError(source);
      Recover(cls);
    }

    /** A handler's own onChannelError; None: the error was recoverable or in progress. */
    method OnHandlerError(fault: Option<string>)
      modifies this
      ensures View() == Steps.HandlerError(cfg, old(View()), fault)
    {
      hide Classify, Steps.ChannelError;
      match fault {
        case None =>
        case Some(text) => OnChannelError(Steps.Control, text);
      }
    }

    // ----- version requests -----

    /** chain names the chain of requests this one continues. */
    method SendControlVersionRequest(chain: nat)
      modifies this
      ensures View() == Steps.SendVersionRequest(cfg, old(View()), chain)
    {
      hide Classify, Steps.ChannelError, VersionTimeoutText;
      if !hasControlChannel {
        return;
      }
      if requests.first == 0 {
        requests := requests.(first := clock);
      }
      var elapsed := clock - requests.first;
      if elapsed > cfg.recoveryWindowMs {
        OnChannelError(Steps.Control, VersionTimeoutText(elapsed, requests.attempts));
        return;
      }
      requests := requests.(attempts := requests.attempts + 1);
      requests := requests.(tokens := requests.tokens + {InFlight(chain)},
                            sends := Sent(requests.sends, chain, clock, requests.window));
    }

    method ScheduleRetry(chain: nat, delay: nat)
      modifies this
      ensures View() == Steps.Retry(old(View()), chain, delay)
    {
      requests := requests.(tokens := requests.tokens + {Waiting(chain, clock + delay, false)});
    }

    /** The handlers of the promise sendControlVersionRequest sends with. */
    method OnVersionRequestSettled(chain: nat, settlement: Steps.Settlement)
      requires Valid() && InFlight(chain) in requests.tokens
      modifies this
      ensures Valid()
      ensures RequestChains.Continues(old(requests), requests)
      ensures settlement.Delivered? ==>
        View() == old(View()).(ver := old(requests).(tokens := old(requests.tokens) - {InFlight(chain)}))
      ensures SettledOutcome(cfg, old(View()), View(), chain, settlement)
      ensures View() == Steps.SettleVersionRequest(cfg, old(View()), chain, settlement)
    {
      hide Classify, Steps.ChannelError, Steps.RequestTimeout, Steps.Retry, Reachable, Announced, SettledOutcome;
      SettlementDecides(cfg, View(), chain, settlement);
      StepIsReachable(cfg, View(), Events.Arrived(Events.RequestSettled(InFlight(chain), settlement)));
      ArrivalContinues(cfg, View(), chain, settlement);
      requests := requests.(tokens := requests.tokens - {InFlight(chain)});
      match settlement {
        case Delivered =>
        case InProgress => ScheduleRetry(chain, 300);
        case Rejected(text) => OnChannelError(Steps.Control, text);
        case UsbTimeout(native2, text) => OnRequestTimeout(chain, native2, text);
      }
    }

    /** Below the threshold the source goes on to ask whether the threshold has been reached, in
        order to recover at once; that branch cannot be entered and has no counterpart here. */
    method OnRequestTimeout(chain: nat, native2: bool, text: string)
      modifies this
      ensures View() == Steps.RequestTimeout(cfg, old(View()), chain, native2, text)
    {
      hide Classify, Steps.ChannelError, Steps.Retry, Steps.RetryDelay, VersionAttemptsText, Steps.ImmediateRecovery;
      if native2 {
        requests := requests.(native2 := requests.native2 + 1);
      } else {
        requests := requests.(native2 := 0);
      }
      if cfg.fastReconnect && native2 && requests.native2 < cfg.native2Threshold {
        if state == Connected && requests.attempts < cfg.versionMaxAttempts {
          ScheduleRetry(chain, Steps.RetryDelay(cfg, requests.attempts));
        } else {
          OnChannelError(Steps.Control, VersionAttemptsText(requests.attempts));
        }
        return;
      }
      OnChannelError(Steps.Control, text);
    }

    method OnRequestTimer(token: Token)
      requires Valid() && token in requests.tokens && token.Waiting? && token.due <= clock
      modifies this
      ensures Valid()
      ensures token !in requests.tokens && RequestChains.Continues(old(requests), requests)
      ensures RequestTimerOutcome(cfg, old(View()), View(), token)
      ensures View() == Steps.VersionTimer(cfg, old(View()), token)
    {
      hide Steps.SendVersionRequest, Reachable, Announced, RequestTimerOutcome;
      RequestTimerDecides(cfg, View(), token);
      StepIsReachable(cfg, View(), Events.Fired(Events.RequestTimer(token)));
      TimerContinues(cfg, View(), token);
      requests := requests.(tokens := requests.tokens - {token});
      if state == Connected && hasControlChannel && hasControlEventHandler && (token.initial || !projection.version) {
        SendControlVersionRequest(token.chain);
      }
    }

    method CreateControlEventHandler()
      modifies `hasControlEventHandler, `handshake, `requests
      ensures View() == Steps.NewHandler(old(View()))
    {
      hasControlEventHandler := true;
      handshake := handshake.(retries := 0);
      requests := requests.(attempts := 0, first := 0, native2 := 0, window := requests.window + 1);
      requests := requests.(chains := requests.chains + 1);
    }

    /** The part of handleConnectionEstablished that creates the control event handler and sends,
        or schedules, the first version request. */
    method StartVersionRequests(delay: nat)
      modifies this
      ensures View() == Steps.StartRequests(cfg, old(View()), delay)
    {
      hide Steps.SendVersionRequest, Steps.NewHandler;
      if !hasControlChannel || hasControlEventHandler {
        return;
      }
      var chain := requests.chains;
      CreateControlEventHandler();
      if delay > 0 {
        requests := requests.(tokens := requests.tokens + {Waiting(chain, clock + delay, true)});
      } else {
        SendControlVersionRequest(chain);
      }
    }

    method HandleConnectionEstablished(delay: nat)
      modifies this
      ensures View() == Steps.Established(cfg, old(View()), delay)
    {
      hide Steps.ResetProjection, Steps.StartRequests, Steps.CreateSession, Steps.TransitionTo, Steps.Publish;
      ResetProjectionStatus(true);
      StartVersionRequests(delay);
      deviceGoneRecoveryScheduled := false;
      CreateSessionForDevice();
      TransitionToState(Connected);
      PublishProjectionStatus();
    }

    // ----- searching -----

    method StartWireless(start: Steps.WirelessStart)
      modifies this
      ensures View() == Steps.StartWireless(cfg, old(View()), start)
    {
      hide Steps.Established, Steps.SetupChannels, Steps.TransitionTo;
      TransitionToState(Connecting);
      match start {
        case Listen(ok) =>
          if ok {
            search := search.(accepts := search.accepts + 1);
            TransitionToState(Searching);
          } else {
            TransitionToState(Disconnected);
          }
        case Outbound(ok, setup, delay) =>
          if ok {
            SetupChannels(setup);
            HandleConnectionEstablished(delay);
          } else {
            TransitionToState(Disconnected);
          }
      }
    }

    method StartUsb()
      modifies this
      ensures View() == Steps.StartUsb(cfg, old(View()))
    {
      hide Steps.TransitionTo, Steps.NextSearch;
      NextSearch();
      TransitionToState(Searching);
      search := search.(startupTimers := search.startupTimers + 1);
    }

    method NextSearch()
      modifies `search
      ensures View() == Steps.NextSearch(old(View()))
    {
      search := search.(hubStarted := false);
      search := search.(generation := search.generation + 1);
    }

    method StartSearching(start: Steps.WirelessStart)
      modifies this
      ensures old(Valid()) ==> Valid()
      ensures !handshake.awaiting && !deviceGoneRecoveryScheduled && grace.noDevice == 0
      ensures old(isInitialised && state == Disconnected) ==> state == SearchLeadsTo(cfg, start)
      ensures old(!isInitialised || state != Disconnected) ==>
        state == old(state) && session == old(session) && requests == old(requests)
      ensures View() == Steps.StartSearching(cfg, old(View()), start)
    {
      hide Steps.ResetProjection, Steps.StartWireless, Steps.StartUsb, Reachable;
      if Valid() {
        StepIsReachable(cfg, View(), Events.Called(Events.StartSearchingCall(start)));
      }
      StartSearchingObserved(cfg, View(), start);
      deviceGoneRecoveryScheduled := false;
      ResetProjectionStatus(false);
      if !isInitialised || state != Disconnected {
        return;
      }
      if cfg.wireless {
        StartWireless(start);
      } else {
        StartUsb();
      }
    }

    method StopSearching()
      modifies this
      ensures old(Valid()) ==> Valid()
      ensures old(state) == Searching ==> state == Disconnected && !handshake.awaiting
      ensures old(state) != Searching ==> View() == old(View())
      ensures View() == Steps.StopSearching(cfg, old(View()))
    {
      hide Steps.ResetProjection, Steps.TransitionTo, Reachable;
      if Valid() {
        StepIsReachable(cfg, View(), Events.Called(Events.StopSearchingCall));
      }
      StopSearchingObserved(cfg, View());
      if state != Searching {
        return;
      }
      search := search.(hubStarted := false);
      ResetProjectionStatus(false);
      TransitionToState(Disconnected);
    }

    method StartUSBHubDetection()
      modifies this
      ensures View() == Steps.StartHub(cfg, old(View()))
    {
      hide Steps.TransitionTo;
      if !hasAasdk {
        TransitionToState(Disconnected);
        return;
      }
      if search.hubStarted {
        return;
      }
      search := search.(hubStarted := true);
      search := search.(promises := search.promises + {HubPromise(search.generation, search.issued)});
      search := search.(issued := search.issued + 1);
    }

    /** The delayed start of hub detection that startSearching schedules. */
    method OnHubStartTimer()
      requires Valid() && search.startupTimers > 0
      modifies this
      ensures Valid()
      ensures state == if old(state) == Searching && !old(hasAasdk) then Disconnected else old(state)
      ensures old(state) == Searching && old(hasAasdk) ==>
        search.hubStarted && search.generation == old(search).generation
        && search.promises == old(search).promises +
             if old(search).hubStarted then {} else {HubPromise(old(search).generation, old(search).issued)}
      ensures old(state) != Searching ==> session == old(session) && requests == old(requests)
      ensures View() == Steps.StartupTimer(cfg, old(View()))
    {
      hide Steps.StartupTimer, Reachable, Announced;
      StepIsReachable(cfg, View(), Events.Fired(Events.HubStartTimer));
      HubStartObserved(cfg, View());
      StartHubIfSearching();
    }

    method StartHubIfSearching()
      requires search.startupTimers > 0
      modifies this
      ensures View() == Steps.StartupTimer(cfg, old(View()))
    {
      hide Steps.StartHub;
      search := search.(startupTimers := search.startupTimers - 1);
      if state == Searching {
        StartUSBHubDetection();
      }
    }

    /** An accessory-mode device has been opened. */
    method Attach(setup: Steps.Setup, delay: nat)
      modifies this
      ensures View() == Steps.Attach(cfg, old(View()), setup, delay)
    {
      hide Steps.Established, Steps.SetupChannels, Steps.TransitionTo;
      TransitionToState(Connecting);
      SetupChannels(setup);
      HandleConnectionEstablished(delay);
    }

    /** The periodic scan finds a device in accessory mode. */
    method OnDeviceScanned(setup: Steps.Setup, delay: nat)
      requires Valid()
      modifies this
      ensures Valid()
      ensures state == if old(state) == Searching then Connected else old(state)
      ensures old(state) == Searching ==> session.state == Active && session.current.Some?
      ensures old(state) != Searching ==> View() == old(View())
      ensures View() == Events.OnArrival(cfg, old(View()), Events.ScanAttached(setup, delay))
    {
      hide Steps.Attach, Reachable;
      StepIsReachable(cfg, View(), Events.Arrived(Events.ScanAttached(setup, delay)));
      AttachConnects(cfg, View(), setup, delay);
      ReachableFits(cfg, Events.OnArrival(cfg, View(), Events.ScanAttached(setup, delay)));
      if state == Searching {
        Attach(setup, delay);
      }
    }

    method OnHubPromise(promise: HubPromise, outcome: Steps.HubResult)
      requires Valid() && promise in search.promises
      modifies this
      ensures Valid()
      ensures old(HandshakeQuiet.Connects(View(), Events.HubSettled(promise, outcome))) ==>
        state == Connected && session.state == Active && session.current.Some?
      ensures !old(HandshakeQuiet.Connects(View(), Events.HubSettled(promise, outcome))) ==>
        View() == old(View()).(search := old(search).(promises := old(search.promises) - {promise}))
      ensures View() == Steps.SettleHub(cfg, old(View()), promise, outcome)
    {
      hide Steps.Attach, Reachable, Announced;
      StepIsReachable(cfg, View(), Events.Arrived(Events.HubSettled(promise, outcome)));
      HubPromiseObserved(cfg, View(), promise, outcome);
      hide Steps.SettleHub;
      SettleHub(promise, outcome);
    }

    method SettleHub(promise: HubPromise, outcome: Steps.HubResult)
      modifies this
      ensures View() == Steps.SettleHub(cfg, old(View()), promise, outcome)
    {
      hide Steps.Attach;
      search := search.(promises := search.promises - {promise});
      if promise.generation != search.generation || state != Searching {
        return;
      }
      match outcome {
        case Direct(setup, delay) =>
          search := search.(attachments := Attached(search.attachments, promise.generation));
          Attach(setup, delay);
        case Deferred =>
        case HubRejected =>
      }
    }

    // ----- control channel callbacks -----

    method OnVersionResponse(compatible: bool, sent: Events.SendResult)
      requires Valid()
      modifies this
      ensures Valid()
      ensures !old(hasControlChannel) ==> View() == old(View())
      ensures old(hasControlChannel) && !compatible ==> state == Failed && NoSession(session)
      ensures old(hasControlChannel) && compatible && sent.SentOk? ==>
        handshake.awaiting && projection.version && state == old(state)
      ensures VersionResponseOutcome(cfg, old(View()), View(), compatible, sent)
      ensures View() == Events.OnVersionResponse(cfg, old(View()), compatible, sent)
    {
      hide Classify, Steps.ChannelError, Steps.HandlerError, Steps.TransitionTo, Events.NoteVersion,
        Events.ArmWatchdog, Reachable, Announced, VersionResponseOutcome;
      VersionResponseDecides(cfg, View(), compatible, sent);
      StepIsReachable(cfg, View(), Events.CalledBack(Events.VersionResponse(compatible, sent)));
      VersionResponseObserved(cfg, View(), compatible, sent);
      ReachableFits(cfg, Events.OnVersionResponse(cfg, View(), compatible, sent));
      if !hasControlChannel {
        return;
      }
      NoteVersion();
      if !compatible {
        OnChannelError(Steps.Control, "No compatible protocol version");
        TransitionToState(Failed);
        return;
      }
      match sent {
        case SentOk => ArmWatchdog();
        case Threw(fault) => OnHandlerError(fault);
      }
    }

    method NoteVersion()
      modifies this
      ensures View() == Events.NoteVersion(cfg, old(View()))
    {
      hide Steps.Publish, Steps.ResetRequests;
      ForgetVersionRequests();
      requests := requests.(native2 := 0);
      projection := projection.(version := true, notes := Noted(projection.notes, VersionNote));
      PublishProjectionStatus();
    }

    method ArmWatchdog()
      modifies this
      ensures View() == Events.ArmWatchdog(old(View()))
    {
      handshake := handshake.(awaiting := true, epoch := handshake.epoch + 1);
      var watchdog := Watchdog(handshake.epoch, false, handshake.responses);
      handshake := handshake.(watchdogs := handshake.watchdogs + {watchdog});
      handshake := handshake.(log := Happened(handshake.log, Armed(handshake.responses)));
      handshake := handshake.(responses := handshake.responses + 1);
    }

    method StopAwaiting()
      modifies `handshake
      ensures handshake == Events.StopAwaiting(old(handshake))
    {
      if handshake.awaiting {
        handshake := handshake.(awaiting := false, retries := 0);
      }
      handshake := handshake.(log := Happened(handshake.log, Cleared));
    }

    method OnHandshake(sent: Events.SendResult)
      requires Valid()
      modifies this
      ensures Valid()
      ensures old(hasControlChannel) ==> !handshake.awaiting && forall w :: !Events.Acts(View(), w)
      ensures old(hasControlChannel) && sent.Threw? && sent.fault.Some? ==>
        Reported(cfg, old(View()), View(), sent.fault.value)
      ensures View() == Events.OnHandshake(cfg, old(View()), sent)
    {
      hide Events.OnHandshake, Reachable, Announced, Reported;
      StepIsReachable(cfg, View(), Events.CalledBack(Events.HandshakeMessage(sent)));
      if hasControlChannel {
        HandshakeQuiet.CallbackEndsWait(cfg, View(), Events.HandshakeMessage(sent));
        if sent.Threw? && sent.fault.Some? {
          HandshakeFaultReported(cfg, View(), sent.fault.value);
        }
      }
      ContinueHandshake(sent);
    }

    method ContinueHandshake(sent: Events.SendResult)
      modifies this
      ensures View() == Events.OnHandshake(cfg, old(View()), sent)
    {
      hide Steps.HandlerError, Events.StopAwaiting;
      if !hasControlChannel {
        return;
      }
      StopAwaiting();
      match sent {
        case SentOk =>
        case Threw(fault) => OnHandlerError(fault);
      }
    }

    method OnServiceDiscoveryRequest()
      requires Valid()
      modifies this
      ensures Valid()
      ensures old(hasControlChannel) ==> projection.discovery && Announced(cfg, View())
      ensures old(hasControlChannel) ==> forall w :: !Events.Acts(View(), w)
      ensures View() == Events.OnDiscoveryRequest(cfg, old(View()))
    {
      hide Events.OnDiscoveryRequest, Reachable, Announced;
      StepIsReachable(cfg, View(), Events.CalledBack(Events.DiscoveryRequest));
      if hasControlChannel {
        HandshakeQuiet.CallbackEndsWait(cfg, View(), Events.DiscoveryRequest);
        DiscoveryObserved(cfg, View());
      }
      NoteDiscovery();
    }

    method NoteDiscovery()
      modifies this
      ensures View() == Events.OnDiscoveryRequest(cfg, old(View()))
    {
      hide Steps.Publish, Events.StopAwaiting;
      if !hasControlChannel {
        return;
      }
      StopAwaiting();
      projection := projection.(discovery := true, notes := Noted(projection.notes, DiscoveryNote));
      PublishProjectionStatus();
    }

    /** A watchdog timer of onVersionResponse; w is what the timer captured. */
    method OnWatchdogTimer(w: Watchdog, elapsed: nat, retry: Events.RetryResult)
      requires Valid() && w in handshake.watchdogs
      modifies this
      ensures Valid()
      ensures !old(Events.Acts(View(), w)) ==> View() == Events.TakeWatchdog(old(View()), w)
      ensures old(Events.Acts(View(), w)) ==> View() != Events.TakeWatchdog(old(View()), w)
      ensures WatchdogOutcome(cfg, old(View()), View(), w, retry)
      ensures View() == Events.OnWatchdog(cfg, old(View()), w, elapsed, retry)
    {
      hide Events.OnWatchdog, Reachable, Announced, WatchdogOutcome;
      WatchdogDecides(cfg, View(), w, elapsed, retry);
      StepIsReachable(cfg, View(), Events.Fired(Events.WatchdogTimer(w, elapsed, retry)));
      HandshakeQuiet.WatchdogWorksIffActs(cfg, View(), w, elapsed, retry);
      RunWatchdog(w, elapsed, retry);
    }

    method RunWatchdog(w: Watchdog, elapsed: nat, retry: Events.RetryResult)
      modifies this
      ensures View() == Events.OnWatchdog(cfg, old(View()), w, elapsed, retry)
    {
      hide Classify, Steps.ChannelError, Events.RetryHandshake, HandshakeTimeoutText;
      handshake := handshake.(watchdogs := handshake.watchdogs - {w});
      if !handshake.awaiting || handshake.epoch != w.epoch {
        return;
      }
      if projection.discovery {
        return;
      }
      if state != Connected && state != Connecting {
        return;
      }
      if !w.second && handshake.retries < cfg.handshakeRetries {
        handshake := handshake.(retries := handshake.retries + 1);
        RetryHandshake(w.response, retry);
        return;
      }
      handshake := handshake.(awaiting := false, log := Happened(handshake.log, TimedOut(w.response)));
      OnChannelError(Steps.Control, HandshakeTimeoutText(elapsed));
    }

    method RetryHandshake(response: nat, retry: Events.RetryResult)
      modifies this
      ensures View() == Events.RetryHandshake(cfg, old(View()), response, retry)
    {
      hide Classify, Steps.ChannelError;
      match retry {
        case Transmitted => handshake := handshake.(log := Happened(handshake.log, RetrySent(response)));
        case NoChannel =>
        case RetryThrew(what) =>
          handshake := handshake.(awaiting := false);
          OnChannelError(Steps.Control, "Handshake retry failed: " + what);
          return;
      }
      handshake := handshake.(epoch := handshake.epoch + 1);
      handshake := handshake.(watchdogs := handshake.watchdogs + {Watchdog(handshake.epoch, true, response)});
    }

    // ----- media channel callbacks -----

    method OnVideoChannelOpenRequest()
      requires Valid()
      modifies this
      ensures Valid()
      ensures projection.channelOpen && Announced(cfg, View())
      ensures View() == Events.OnVideoOpened(cfg, old(View()))
    {
      hide Steps.Publish, Reachable, Announced;
      VideoOpenedObserved(cfg, View());
      projection := projection.(channelOpen := true, notes := Noted(projection.notes, OpenedNote));
      PublishProjectionStatus();
      assert View() == Events.OnVideoOpened(cfg, old(View()));
      hide Events.OnVideoOpened;
    }

    method OnVideoSetupRequest()
      requires Valid()
      modifies this
      ensures Valid()
      ensures projection.configured && Announced(cfg, View())
      ensures View() == Events.OnVideoSetup(cfg, old(View()))
    {
      hide Steps.Publish, Reachable, Announced;
      VideoSetupObserved(cfg, View());
      projection := projection.(configured := true, notes := Noted(projection.notes, ConfiguredNote));
      PublishProjectionStatus();
      assert View() == Events.OnVideoSetup(cfg, old(View()));
      hide Events.OnVideoSetup;
    }

    method OnVideoStartIndication()
      requires Valid()
      modifies this
      ensures Valid()
      ensures projection.started && Announced(cfg, View())
      ensures View() == Events.OnVideoStarted(cfg, old(View()))
    {
      hide Steps.Publish, Reachable, Announced;
      VideoStartedObserved(cfg, View());
      projection := projection.(started := true, notes := Noted(projection.notes, StartedNote));
      PublishProjectionStatus();
      assert View() == Events.OnVideoStarted(cfg, old(View()));
      hide Events.OnVideoStarted;
    }

    method OnVideoStopIndication()
      requires Valid()
      modifies this
      ensures Valid()
      ensures !projection.started && !projection.frame && Announced(cfg, View())
      ensures View() == Events.OnVideoStopped(cfg, old(View()))
    {
      hide Steps.Publish, Reachable, Announced;
      VideoStoppedObserved(cfg, View());
      projection := projection.(started := false, frame := false, notes := Noted(projection.notes, StoppedNote));
      PublishProjectionStatus();
      assert View() == Events.OnVideoStopped(cfg, old(View()));
      hide Events.OnVideoStopped;
    }

    method OnMediaAudioIndication(started: bool)
      requires Valid()
      modifies this
      ensures Valid()
      ensures projection.audioStarted == started && Announced(cfg, View())
      ensures View() == Events.OnMediaAudio(cfg, old(View()), started)
    {
      hide Steps.Publish, Reachable, Announced;
      MediaAudioObserved(cfg, View(), started);
      projection := projection.(audioStarted := started);
      PublishProjectionStatus();
      assert View() == Events.OnMediaAudio(cfg, old(View()), started);
      hide Events.OnMediaAudio;
    }

    method OnVideoChannelUpdate(data: seq<byte>)
      requires Valid()
      modifies this
      ensures Valid()
      ensures projection.frame <==> old(projection.frame) || (cfg.videoEnabled && (cfg.h264 ==> H264.HasVcl(data)))
      ensures projection.frame && !old(projection.frame) && !cfg.h264 ==> Announced(cfg, View())
      ensures View() == Events.OnVideoFrame(cfg, old(View()), data)
    {
      hide Events.OnVideoFrame, H264.HasVcl, Reachable, Announced;
      VideoFrameObserved(cfg, View(), data);
      AcceptFrame(data);
    }

    method AcceptFrame(data: seq<byte>)
      modifies this
      ensures View() == Events.OnVideoFrame(cfg, old(View()), data)
    {
      hide Steps.Publish, H264.HasVcl;
      if !cfg.videoEnabled || projection.frame {
        return;
      }
      var containsVcl := H264.ContainsVclNal(data);
      if cfg.h264 && !containsVcl {
        return;
      }
      projection := projection.(frame := true, notes := Noted(projection.notes, FrameNote(data)));
      if !cfg.h264 {
        PublishProjectionStatus();
      }
    }

    // ----- recovery timers -----

    method ForgetSearch()
      modifies `search, `requests
      ensures View() == Events.ForgetSearch(old(View()))
    {
      search := search.(hubStarted := false);
      ForgetVersionRequests();
    }

    /** The restart timer of onChannelError. */
    method OnRecoveryRestart(controlTimeout: bool, full: bool, start: Steps.WirelessStart)
      requires Valid()
      modifies this
      ensures Valid()
      ensures old(state) == Searching ==> View() == old(View()).(deviceGone := false)
      ensures old(state) != Searching ==> !handshake.awaiting
      ensures old(state) != Searching && controlTimeout ==>
        state == old(state) && !hasControlChannel && (full ==> !hasAasdk)
      ensures old(isInitialised) && !controlTimeout && CanRestart(old(state)) ==> state == SearchLeadsTo(cfg, start)
      ensures old(state) != Searching && controlTimeout ==>
        teardownInProgress && hasAasdk == (old(hasAasdk) && !full) && requests.attempts == 0 && requests.first == 0
      ensures View() == Events.OnRecoveryRestart(cfg, old(View()), controlTimeout, full, start)
    {
      hide Events.OnRecoveryRestart, Reachable, Announced;
      StepIsReachable(cfg, View(), Events.Fired(Events.RecoveryRestart(controlTimeout, full, start)));
      RecoveryRestartObserved(cfg, View(), controlTimeout, full, start);
      Restart(controlTimeout, full, start);
    }

    method Restart(controlTimeout: bool, full: bool, start: Steps.WirelessStart)
      modifies this
      ensures View() == Events.OnRecoveryRestart(cfg, old(View()), controlTimeout, full, start)
    {
      hide Events.ForgetSearch, Steps.CleanupAasdk, Steps.CleanupChannels, Steps.Disconnect, Steps.StartSearching;
      deviceGoneRecoveryScheduled := false;
      if state == Searching {
        return;
      }
      if controlTimeout {
        ForgetSearch();
        if full {
          CleanupAASDK();
        } else {
          CleanupChannels();
        }
        return;
      }
      Disconnect();
      StartSearching(start);
    }

    method OnRecoveryReinit(full: bool, ok: bool, start: Steps.WirelessStart)
      requires Valid()
      modifies this
      ensures Valid()
      ensures old(state) == Searching ==> View() == old(View())
      ensures old(state) != Searching && full && !ok ==> state == Failed && NoSession(session)
      ensures old(isInitialised && state == Disconnected) && (full ==> ok) ==> state == SearchLeadsTo(cfg, start)
      ensures old(state) != Searching && full && ok ==> hasAasdk && !teardownInProgress
      ensures View() == Events.OnRecoveryReinit(cfg, old(View()), full, ok, start)
    {
      hide Steps.SetupAasdk, Steps.TransitionTo, Steps.StartSearching, Reachable, Announced;
      StepIsReachable(cfg, View(), Events.Fired(Events.RecoveryReinit(full, ok, start)));
      RecoveryReinitObserved(cfg, View(), full, ok, start);
      if state == Searching {
        return;
      }
      if full {
        SetupAASDK(ok);
        if !ok {
          TransitionToState(Failed);
          return;
        }
      }
      StartSearching(start);
    }

    method OnImmediateRestart(start: Steps.WirelessStart)
      requires Valid()
      modifies this
      ensures Valid()
      ensures !handshake.awaiting
      ensures old(isInitialised && state == Disconnected) ==> state == SearchLeadsTo(cfg, start)
      ensures View() == Steps.StartSearching(cfg, old(View()).(deviceGone := false), start)
    {
      hide Steps.StartSearching, Reachable, Announced;
      StepIsReachable(cfg, View(), Events.Fired(Events.ImmediateRestart(start)));
      StartSearchingObserved(cfg, View().(deviceGone := false), start);
      deviceGoneRecoveryScheduled := false;
      StartSearching(start);
    }

    method OnIdleRecovery()
      requires Valid()
      modifies this
      ensures Valid()
      ensures old(state) == Connected ==> state == Disconnected && NoSession(session) && deviceGoneRecoveryScheduled
      ensures old(state) != Connected ==> View() == old(View())
      ensures View() == Events.OnIdleDisconnect(cfg, old(View()))
    {
      hide Steps.Disconnect, Reachable, Announced;
      StepIsReachable(cfg, View(), Events.Fired(Events.IdleRecoveryDisconnect));
      IdleDisconnectObserved(cfg, View());
      if state == Connected {
        deviceGoneRecoveryScheduled := true;
        Disconnect();
      }
    }

    method OnIdleTeardown()
      requires Valid()
      modifies this
      ensures Valid()
      ensures state == old(state)
      ensures old(state) == Disconnected ==> !hasAasdk && !hasControlChannel && !hasMediaPipeline
      ensures old(state) != Disconnected ==> View() == old(View()).(deviceGone := false)
      ensures old(state) == Disconnected ==> teardownInProgress && requests.attempts == 0 && requests.first == 0
      ensures View() == Events.OnIdleTeardown(cfg, old(View()))
    {
      hide Events.ForgetSearch, Steps.CleanupAasdk, Reachable, Announced;
      StepIsReachable(cfg, View(), Events.Fired(Events.IdleRecoveryTeardown));
      IdleTeardownObserved(cfg, View());
      if state != Disconnected {
        deviceGoneRecoveryScheduled := false;
        return;
      }
      ForgetSearch();
      CleanupAASDK();
    }

    method OnIdleReinit(ok: bool, start: Steps.WirelessStart)
      requires Valid()
      modifies this
      ensures Valid()
      ensures !deviceGoneRecoveryScheduled
      ensures old(state) == Searching ==> state == Searching
      ensures old(state) != Searching && !ok ==> state == Failed && NoSession(session)
      ensures old(isInitialised && state == Disconnected) && ok ==> state == SearchLeadsTo(cfg, start)
      ensures old(state) != Searching && ok ==> hasAasdk && !teardownInProgress
      ensures View() == Events.OnIdleReinit(cfg, old(View()), ok, start)
    {
      hide Events.OnIdleReinit, Reachable, Announced;
      StepIsReachable(cfg, View(), Events.Fired(Events.IdleRecoveryReinit(ok, start)));
      IdleReinitObserved(cfg, View(), ok, start);
      ReinitIdle(ok, start);
    }

    method ReinitIdle(ok: bool, start: Steps.WirelessStart)
      modifies this
      ensures View() == Events.OnIdleReinit(cfg, old(View()), ok, start)
    {
      hide Steps.SetupAasdk, Steps.TransitionTo, Steps.StartSearching, Reachable, Announced;
      if state != Searching {
        SetupAASDK(ok);
        if ok {
          StartSearching(start);
        } else {
          TransitionToState(Failed);
        }
      }
      deviceGoneRecoveryScheduled := false;
    }

    // ----- API -----

    method Initialise(ok: bool)
      requires Valid()
      modifies this
      ensures Valid()
      ensures isInitialised == (old(isInitialised) || ok)
      ensures !old(isInitialised) && ok ==> hasAasdk && state == Disconnected && NoSession(session)
      ensures old(isInitialised) ==> View() == old(View())
      ensures View() == Events.Initialise(cfg, old(View()), ok)
    {
      hide Steps.SetupAasdk, Steps.TransitionTo, Reachable, Announced;
      StepIsReachable(cfg, View(), Events.Called(Events.InitialiseCall(ok)));
      InitialiseObserved(cfg, View(), ok);
      if isInitialised {
        return;
      }
      SetupAASDK(ok);
      if !ok {
        return;
      }
      isInitialised := true;
      TransitionToState(Disconnected);
    }

    method Deinitialise()
      requires Valid()
      modifies this
      ensures Valid()
      ensures !isInitialised
      ensures old(isInitialised) ==> state == Disconnected && NoSession(session) && requests == old(requests)
      ensures old(isInitialised) ==> !hasAasdk && !hasControlChannel && !hasControlEventHandler && !hasMediaPipeline
      ensures !old(isInitialised) ==> View() == old(View())
      ensures View() == Events.Deinitialise(cfg, old(View()))
    {
      hide Steps.StopSearching, Steps.Disconnect, Steps.CleanupAasdk, Steps.TransitionTo, Reachable, Announced;
      StepIsReachable(cfg, View(), Events.Called(Events.DeinitialiseCall));
      if isInitialised {
        DeinitialiseObserved(cfg, View());
      }
      ReachableFits(cfg, Events.Step(cfg, View(), Events.Called(Events.DeinitialiseCall)));
      if !isInitialised {
        return;
      }
      StopSearching();
      if state == Connected {
        Disconnect();
      }
      CleanupAASDK();
      isInitialised := false;
      TransitionToState(Disconnected);
    }

    /** known: the requested serial is that of the device at hand. There is no guard on the state. */
    method ConnectToDevice(known: bool)
      requires Valid()
      modifies this
      ensures Valid()
      ensures state == if old(isInitialised) && known then Connecting else old(state)
      ensures isInitialised && known ==> session.state == Negotiating && !session.heartbeat
      ensures View() ==
              if old(isInitialised) && known then Steps.TransitionTo(cfg, old(View()), Connecting) else old(View())
    {
      hide Steps.TransitionTo, Reachable, Announced;
      StepIsReachable(cfg, View(), Events.Called(Events.ConnectToDeviceCall(known)));
      if isInitialised && known {
        ConnectToDeviceObserved(cfg, View());
      }
      if isInitialised && known {
        TransitionToState(Connecting);
      }
    }

    method HandleDeviceRemoved()
      modifies this
      ensures old(Valid()) ==> Valid()
      ensures old(Valid()) && old(state) == Connected ==> state == Disconnected && SessionOver(old(session), session)
      ensures old(state) != Connected ==> View() == old(View())
      ensures View() == Steps.DisconnectIfConnected(cfg, old(View()))
    {
      hide Steps.Disconnect, Reachable;
      if Valid() {
        StepIsReachable(cfg, View(), Events.Called(Events.DeviceRemoved));
        DisconnectObserved(cfg, View());
      }
      if state == Connected {
        Disconnect();
      }
    }

    /** What a bye-bye request leads to. */
    method HandleConnectionLost()
      requires Valid()
      modifies this
      ensures Valid()
      ensures state != Connected && !handshake.awaiting
      ensures View() == Steps.ConnectionLost(cfg, old(View()))
    {
      hide Steps.DisconnectIfConnected, Steps.ResetProjection, Reachable, Announced;
      StepIsReachable(cfg, View(), Events.CalledBack(Events.ByeBye));
      ConnectionLostObserved(cfg, View());
      ResetProjectionStatus(false);
      HandleDeviceRemoved();
    }

    /** The accept handler of the listening socket: it does not look at the connection state. */
    method OnTcpAccepted(accepted: bool, setup: Steps.Setup, delay: nat)
      requires Valid() && search.accepts > 0
      modifies this
      ensures Valid()
      ensures accepted ==> state == Connected && SessionRows.BegunFrom(old(state), old(session), session)
      ensures !accepted ==> state == Disconnected && NoSession(session)
      ensures View() == Events.OnTcpAccepted(cfg, old(View()), accepted, setup, delay)
    {
      hide Events.OnTcpAccepted, Reachable, Announced;
      StepIsReachable(cfg, View(), Events.Arrived(Events.TcpAccepted(accepted, setup, delay)));
      if accepted {
        SessionRows.AcceptedHeartbeatIff(cfg, View(), setup, delay);
      } else {
        RefusedAcceptObserved(cfg, View(), setup, delay);
        ReachableFits(cfg, Events.OnTcpAccepted(cfg, View(), accepted, setup, delay));
      }
      TakeConnection(accepted, setup, delay);
    }

    /** The handler of an accept that completed. */
    method TakeConnection(accepted: bool, setup: Steps.Setup, delay: nat)
      requires search.accepts > 0
      modifies this
      ensures View() == Events.OnTcpAccepted(cfg, old(View()), accepted, setup, delay)
    {
      hide Steps.Established, Steps.SetupChannels, Steps.TransitionTo;
      search := search.(accepts := search.accepts - 1);
      if accepted {
        SetupChannels(setup);
        HandleConnectionEstablished(delay);
      } else {
        TransitionToState(Disconnected);
      }
    }

    method OnHeartbeatTimer()
      requires Valid()
      modifies this
      ensures Valid()
      ensures old(session.heartbeat) ==>
        old(session.current).Some? && session.log == Write(old(session.log), Beat(old(session.current).value))
      ensures !old(session.heartbeat) ==> View() == old(View())
      ensures View() == Events.OnHeartbeat(old(View()))
    {
      hide Steps.Heartbeat, Reachable, Announced;
      StepIsReachable(cfg, View(), Events.Fired(Events.HeartbeatTimer));
      HeartbeatObserved(cfg, View());
      if session.heartbeat {
        UpdateSessionHeartbeat();
      }
    }

    // ----- the event loop -----

    method HandleCall(call: Events.Call)
      requires Valid()
      modifies this
      ensures Valid() && View() == Events.OnCall(cfg, old(View()), call)
    {
      hide Events.Initialise, Events.Deinitialise, Steps.StartSearching, Steps.StopSearching, Steps.TransitionTo,
        Steps.Disconnect, Steps.DisconnectIfConnected;
      match call {
        case InitialiseCall(ok) => Initialise(ok);
        case DeinitialiseCall => Deinitialise();
        case StartSearchingCall(start) => StartSearching(start);
        case StopSearchingCall => StopSearching();
        case ConnectToDeviceCall(known) => ConnectToDevice(known);
        case DisconnectCall => Disconnect();
        case DeviceRemoved => HandleDeviceRemoved();
      }
    }

    method HandleCallback(callback: Events.Callback)
      requires Valid()
      modifies this
      ensures Valid() && View() == Events.OnCallback(cfg, old(View()), callback)
    {
      hide Events.OnVersionResponse, Events.OnHandshake, Events.OnDiscoveryRequest, Steps.ConnectionLost,
        Events.OnVideoOpened, Events.OnVideoSetup, Events.OnVideoStarted, Events.OnVideoStopped, Events.OnMediaAudio,
        Events.OnVideoFrame, Steps.ChannelError, Classify, View;
      match callback {
        case VersionResponse(compatible, sent) => OnVersionResponse(compatible, sent);
        case HandshakeMessage(sent) => OnHandshake(sent);
        case DiscoveryRequest => OnServiceDiscoveryRequest();
        case ByeBye => HandleConnectionLost();
        case VideoOpened => OnVideoChannelOpenRequest();
        case VideoSetup => OnVideoSetupRequest();
        case VideoStarted => OnVideoStartIndication();
        case VideoStopped => OnVideoStopIndication();
        case VideoFrame(data) => OnVideoChannelUpdate(data);
        case MediaStarted => OnMediaAudioIndication(true);
        case MediaStopped => OnMediaAudioIndication(false);
        case ErrorReported(source, text) => OnChannelError(source, text);
      }
    }

    method HandleTimer(timer: Events.Timer)
      requires Valid() && Events.TimerPending(View(), timer)
      modifies this
      ensures Valid() && View() == Events.OnTimer(cfg, old(View()), timer)
    {
      hide Events.OnHeartbeat, Events.OnWatchdog, Steps.VersionTimer, Steps.StartupTimer, Events.OnRecoveryRestart,
        Events.OnRecoveryReinit, Steps.StartSearching, Events.OnIdleDisconnect, Events.OnIdleTeardown,
        Events.OnIdleReinit;
      match timer {
        case HeartbeatTimer => OnHeartbeatTimer();
        case WatchdogTimer(w, elapsed, retry) => OnWatchdogTimer(w, elapsed, retry);
        case RequestTimer(token) => OnRequestTimer(token);
        case HubStartTimer => OnHubStartTimer();
        case RecoveryRestart(controlTimeout, full, start) => OnRecoveryRestart(controlTimeout, full, start);
        case RecoveryReinit(full, ok, start) => OnRecoveryReinit(full, ok, start);
        case ImmediateRestart(start) => OnImmediateRestart(start);
        case IdleRecoveryDisconnect => OnIdleRecovery();
        case IdleRecoveryTeardown => OnIdleTeardown();
        case IdleRecoveryReinit(ok, start) => OnIdleReinit(ok, start);
      }
    }

    method HandleArrival(arrival: Events.Arrival)
      requires Valid() && Events.ArrivalPending(View(), arrival)
      modifies this
      ensures Valid() && View() == Events.OnArrival(cfg, old(View()), arrival)
    {
      hide Steps.SettleVersionRequest, Steps.SettleHub, Steps.Attach, Events.OnTcpAccepted;
      match arrival {
        case RequestSettled(token, settlement) => OnVersionRequestSettled(token.chain, settlement);
        case HubSettled(promise, outcome) => OnHubPromise(promise, outcome);
        case ScanAttached(setup, delay) => OnDeviceScanned(setup, delay);
        case TcpAccepted(accepted, setup, delay) => OnTcpAccepted(accepted, setup, delay);
      }
    }

    /** Whatever enabled event comes next, the object does what Step says and stays reachable. */
    method Dispatch(e: Events.Event)
      requires Valid() && Events.Enabled(cfg, View(), e)
      modifies this
      ensures Valid() && View() == Events.Step(cfg, old(View()), e)
    {
      hide Events.OnCall, Events.OnCallback, Events.OnTimer, Events.OnArrival, Events.TimerPending,
        Events.ArrivalPending, Reachable;
      match e {
        case Tick(ms) =>
          StepIsReachable(cfg, View(), e);
          clock := clock + ms;
        case Called(call) => HandleCall(call);
        case CalledBack(callback) => HandleCallback(callback);
        case Fired(timer) => HandleTimer(timer);
        case Arrived(arrival) => HandleArrival(arrival);
      }
    }
  }
}
