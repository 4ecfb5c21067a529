/**
 How chains of version requests come and go: a step continues pending chains or, with a new
 control handler, begins one. Between steps the connection state is one of five.
 */
module RequestChains {
  import opened Bytes
  import opened ErrorText
  import opened ServiceState
  import opened Wrappers
  import opened ServiceSteps
  import opened ServiceEvents
  import opened ServiceProofs
  import opened HandshakeQuiet

  /** AUTHENTICATING and SECURING are never entered, and DISCONNECTING never outlasts a step. */
  predicate Resting(s: Service) {
    s.conn != Authenticating && s.conn != Securing && s.conn != Disconnecting
  }

  predicate Pending(tokens: set<Token>, chain: nat) {
    exists t :: t in tokens && t.chain == chain
  }

  /** Only chains that were pending are pending, and only they send. */
  ghost predicate Continues(a: Requests, b: Requests) {
    && b.chains == a.chains
    && (forall u :: u in b.tokens ==> Pending(a.tokens, u.chain))
    && (b.sends == a.sends
        || (b.sends.Sent? && b.sends.past == a.sends && Pending(a.tokens, b.sends.chain) && b.sends.window == a.window))
  }

  /** A chain of the next number begins in a new window; everything pending stays. */
  ghost predicate Begins(a: Requests, b: Requests) {
    && b.chains == a.chains + 1 && b.window > a.window
    && (exists u: Token :: u.chain == a.chains && b.tokens == a.tokens + {u})
    && (b.sends == a.sends
        || (b.sends.Sent? && b.sends.past == a.sends && b.sends.chain == a.chains && b.sends.window == b.window))
  }

  /** Between steps the control channel and its handler come and go together. */
  predicate Linked(s: Service) {
    s.control == s.handler
  }

  /** Without a new handler a lost control channel does not come back, and nothing is sent without one. */
  predicate Tethered(s: Service, t: Service) {
    && (t.control ==> s.control)
    && (!s.control ==> t.ver.sends == s.ver.sends)
  }

  /** What a step other than a version response may do: a window ends only when the control
      channel goes or a new handler begins another. */
  ghost predicate Advances(s: Service, t: Service) {
    && (Resting(s) ==> Resting(t))
    && (Linked(s) ==> Linked(t))
    && (Begins(s.ver, t.ver)
        || (Continues(s.ver, t.ver) && (t.ver.window == s.ver.window || !t.control) && (Linked(s) ==> Tethered(s, t))))
  }

  /** What a version response may do: the window ends, no chain begins and nothing is sent. */
  ghost predicate Answers(s: Service, t: Service) {
    && (Resting(s) ==> Resting(t))
    && (Linked(s) ==> Linked(t))
    && Continues(s.ver, t.ver) && t.ver.sends == s.ver.sends
    && (t.control ==> s.control && t.ver.window == s.ver.window + 1)
  }

  /** Operations that have nothing to do with version requests. */
  predicate Same(s: Service, t: Service) {
    && (Resting(s) ==> Resting(t))
    && (Linked(s) ==> Linked(t)) && (t.control ==> s.control)
    && t.ver == s.ver
  }

  /** Error handling: recovery forgets the counters and drops the control channel. */
  predicate Dropped(s: Service, t: Service) {
    && (Resting(s) ==> Resting(t))
    && (Linked(s) ==> Linked(t)) && (t.control ==> s.control)
    && t.ver.tokens == s.ver.tokens && t.ver.chains == s.ver.chains && t.ver.sends == s.ver.sends
    && (t.ver.window == s.ver.window || !t.control)
  }

  lemma DroppedAdvances(s: Service, t: Service)
    requires Dropped(s, t)
    ensures Advances(s, t)
  {
    forall u | u in t.ver.tokens ensures Pending(s.ver.tokens, u.chain) {}
  }

  // ----- operations -----

  lemma DisconnectSame(cfg: Config, s: Service)
    ensures Same(s, Disconnect(cfg, s)) && Same(s, DisconnectIfConnected(cfg, s))
    ensures Disconnect(cfg, s).control == s.control && Disconnect(cfg, s).handler == s.handler
  {
    hide TransitionTo, ResetProjection;
    var leaving := TransitionTo(cfg, s, Disconnecting);
    TransitionFrame(cfg, s, Disconnecting);
    ResetFrame(cfg, leaving, false);
    TransitionFrame(cfg, ResetProjection(cfg, leaving, false), Disconnected);
  }

  lemma CleanupSame(cfg: Config, s: Service)
    ensures Same(s, CleanupChannels(cfg, s)) && Same(s, CleanupAasdk(cfg, s))
    ensures !CleanupChannels(cfg, s).control && !CleanupAasdk(cfg, s).control
  {
    hide ResetProjection;
    ResetFrame(cfg, s.(teardown := true, pipeline := false, control := false, handler := false), false);
  }

  lemma ImmediateRecoveryDrops(cfg: Config, s: Service)
    ensures Dropped(s, ImmediateRecovery(cfg, s))
  {
    hide TransitionTo, CleanupChannels, Disconnect;
    var scheduled := ScheduleRecovery(s);
    DisconnectSame(cfg, scheduled);
    CleanupSame(cfg, Disconnect(cfg, scheduled));
    TransitionFrame(cfg, CleanupChannels(cfg, Disconnect(cfg, scheduled)), Disconnected);
  }

  lemma RecoverDrops(cfg: Config, s: Service, cls: ErrorClass)
    ensures Dropped(s, Recover(cfg, s, cls))
  {
    hide ImmediateRecovery, Disconnect;
    ImmediateRecoveryDrops(cfg, s);
    DisconnectSame(cfg, s.(deviceGone := true));
  }

  lemma HandleErrorDrops(cfg: Config, s: Service, source: Source, cls: ErrorClass)
    ensures Dropped(s, HandleError(cfg, s, source, cls))
  {
    hide Recover, Ready, StopStream, ForgetErrors;
    var noted := NoteError(cfg, s, source);
    assert noted.ver == s.ver && noted.conn == s.conn;
    RecoverDrops(cfg, noted, cls);
  }

  lemma ChannelErrorDrops(cfg: Config, s: Service, source: Source, cls: ErrorClass)
    ensures Dropped(s, ChannelError(cfg, s, source, cls))
  {
    hide HandleError, Outdate, CountError, RecordGrace;
    HandleErrorDrops(cfg, OutdateWait(s), source, cls);
    HandleErrorDrops(cfg, Escalate(CountPreHandshake(cfg, s)), source, cls);
    HandleErrorDrops(cfg, s, source, cls);
  }

  lemma ControlErrorDrops(cfg: Config, s: Service, text: string)
    ensures Dropped(s, ControlError(cfg, s, text)) && Dropped(s, HandlerError(cfg, s, Some(text)))
  {
    hide ChannelError, Classify;
    ChannelErrorDrops(cfg, s, Control, Classify(true, text));
  }

  lemma StopSearchingSame(cfg: Config, s: Service)
    ensures Same(s, StopSearching(cfg, s))
  {
    hide ResetProjection, TransitionTo;
    ResetFrame(cfg, HubStopped(s), false);
    TransitionFrame(cfg, ResetProjection(cfg, HubStopped(s), false), Disconnected);
  }

  // ----- chains -----

  /** taken is s without the timer or promise that continues the chain. */
  lemma RetryContinues(cfg: Config, s: Service, taken: Service, chain: nat, delay: nat)
    requires Pending(s.ver.tokens, chain) && taken == s.(ver := taken.ver)
    requires taken.ver == s.ver.(tokens := taken.ver.tokens, native2 := taken.ver.native2)
    requires taken.ver.tokens <= s.ver.tokens
    ensures Advances(s, Retry(taken, chain, delay)) && Advances(s, taken)
  {
    assert forall u :: u in taken.ver.tokens ==> u in s.ver.tokens;
  }

  lemma TakenThenDropped(s: Service, taken: Service, t: Service)
    requires taken == s.(ver := taken.ver)
    requires taken.ver == s.ver.(tokens := taken.ver.tokens, native2 := taken.ver.native2, first := taken.ver.first)
    requires taken.ver.tokens <= s.ver.tokens && Dropped(taken, t)
    ensures Advances(s, t)
  {
    assert forall u :: u in taken.ver.tokens ==> u in s.ver.tokens;
  }

  lemma SentContinues(s: Service, taken: Service, t: Service, chain: nat)
    requires Pending(s.ver.tokens, chain) && taken.ver.tokens <= s.ver.tokens && s.control
    requires t == s.(ver := t.ver)
    requires t.ver == s.ver.(tokens := taken.ver.tokens + {InFlight(chain)}, native2 := t.ver.native2,
                             first := t.ver.first, attempts := t.ver.attempts,
                             sends := Sent(s.ver.sends, chain, s.now, s.ver.window))
    ensures Advances(s, t)
  {
    assert forall u :: u in taken.ver.tokens ==> u in s.ver.tokens;
  }

  lemma SendContinues(cfg: Config, s: Service, taken: Service, chain: nat)
    requires Pending(s.ver.tokens, chain) && taken == s.(ver := taken.ver)
    requires taken.ver == s.ver.(tokens := taken.ver.tokens, native2 := taken.ver.native2)
    requires taken.ver.tokens <= s.ver.tokens
    ensures Advances(s, SendVersionRequest(cfg, taken, chain))
  {
    hide ControlError, VersionTimeoutText, Advances, Dropped;
    var due := taken.(ver := taken.ver.(first := if taken.ver.first == 0 then taken.now else taken.ver.first));
    if !taken.control {
      RetryContinues(cfg, s, taken, chain, 0);
    } else if due.now > due.ver.first + cfg.recoveryWindowMs {
      var text := VersionTimeoutText(due.now - due.ver.first, due.ver.attempts);
      ControlErrorDrops(cfg, due, text);
      TakenThenDropped(s, due, ControlError(cfg, due, text));
    } else {
      SentContinues(s, taken, SendVersionRequest(cfg, taken, chain), chain);
    }
  }

  lemma SettleAdvances(cfg: Config, s: Service, chain: nat, settlement: Settlement)
    requires InFlight(chain) in s.ver.tokens
    ensures Advances(s, SettleVersionRequest(cfg, s, chain, settlement))
  {
    hide ControlError, ImmediateRecovery, RetryDelay, VersionAttemptsText, Retry, Advances, Dropped;
    var taken := s.(ver := s.ver.(tokens := s.ver.tokens - {InFlight(chain)}));
    match settlement {
      case Delivered => RetryContinues(cfg, s, taken, chain, 0);
      case InProgress => RetryContinues(cfg, s, taken, chain, 300);
      case Rejected(text) =>
        ControlErrorDrops(cfg, taken, text);
        TakenThenDropped(s, taken, ControlError(cfg, taken, text));
      case UsbTimeout(native2, text) =>
        var counted := taken.(ver := taken.ver.(native2 := if native2 then taken.ver.native2 + 1 else 0));
        RetryContinues(cfg, s, counted, chain, RetryDelay(cfg, counted.ver.attempts));
        ControlErrorDrops(cfg, counted, text);
        TakenThenDropped(s, counted, ControlError(cfg, counted, text));
        var exhausted := VersionAttemptsText(counted.ver.attempts);
        ControlErrorDrops(cfg, counted, exhausted);
        TakenThenDropped(s, counted, ControlError(cfg, counted, exhausted));
        ImmediateRecoveryDrops(cfg, counted);
        TakenThenDropped(s, counted, ImmediateRecovery(cfg, counted));
    }
  }

  lemma VersionTimerAdvances(cfg: Config, s: Service, token: Token)
    requires token in s.ver.tokens && token.Waiting?
    ensures Advances(s, VersionTimer(cfg, s, token))
  {
    hide SendVersionRequest, Advances;
    var taken := s.(ver := s.ver.(tokens := s.ver.tokens - {token}));
    SendContinues(cfg, s, taken, token.chain);
    RetryContinues(cfg, s, taken, token.chain, 0);
  }

  /** A new handler begins a chain; an existing one, or a missing channel, changes nothing. */
  lemma StartRequestsAdvances(cfg: Config, s: Service, delay: nat)
    ensures var t := StartRequests(cfg, s, delay);
            && t.conn == s.conn && t.control == s.control && t.handler == (s.handler || s.control)
            && if s.control && !s.handler then Begins(s.ver, t.ver) else t == s
  {
    hide ControlError, VersionTimeoutText;
    StartRequestsFrame(cfg, s, delay);
    if s.control && !s.handler {
      var u := if delay > 0 then Waiting(s.ver.chains, s.now + delay, true) else InFlight(s.ver.chains);
      assert u.chain == s.ver.chains && StartRequests(cfg, s, delay).ver.tokens == s.ver.tokens + {u};
    }
  }

  lemma EstablishedAdvances(cfg: Config, s: Service, delay: nat)
    ensures var t := Established(cfg, s, delay);
            && t.conn == Connected && t.control == s.control && t.handler == (s.handler || s.control)
            && if s.control && !s.handler then Begins(s.ver, t.ver) else t.ver == s.ver
  {
    hide ResetProjection, TransitionTo, CreateSession, Ready, StartRequests, Begins;
    var reset := ResetProjection(cfg, s, true);
    ResetFrame(cfg, s, true);
    StartRequestsAdvances(cfg, reset, delay);
    TransitionFrame(cfg, BeginSession(StartRequests(cfg, reset, delay)), Connected);
  }

  /** The same seen from a state that differs outside the requests. */
  lemma ConnectAdvances(cfg: Config, s: Service, ready: Service, delay: nat)
    requires ready.ver == s.ver && ready.handler == s.handler && (s.control ==> ready.control)
    ensures Advances(s, Established(cfg, ready, delay))
  {
    hide Established;
    EstablishedAdvances(cfg, ready, delay);
    forall u | u in s.ver.tokens ensures Pending(s.ver.tokens, u.chain) {}
  }

  lemma SameAdvances(s: Service, t: Service)
    requires Same(s, t)
    ensures Advances(s, t)
  {
    DroppedAdvances(s, t);
  }

  lemma StartWirelessAdvances(cfg: Config, s: Service, ready: Service, start: WirelessStart)
    requires ready.ver == s.ver && ready.handler == s.handler && ready.control == s.control
    ensures Advances(s, StartWireless(cfg, ready, start))
  {
    hide TransitionTo, Established, Advances;
    var connecting := TransitionTo(cfg, ready, Connecting);
    TransitionFrame(cfg, ready, Connecting);
    match start {
      case Listen(ok) =>
        TransitionFrame(cfg, connecting, Disconnected);
        SameAdvances(s, TransitionTo(cfg, connecting, Disconnected));
        TransitionFrame(cfg, Listening(connecting), Searching);
        SameAdvances(s, TransitionTo(cfg, Listening(connecting), Searching));
      case Outbound(ok, setup, delay) =>
        TransitionFrame(cfg, connecting, Disconnected);
        SameAdvances(s, TransitionTo(cfg, connecting, Disconnected));
        ConnectAdvances(cfg, s, SetupChannels(connecting, setup), delay);
    }
  }

  lemma StartSearchingAdvances(cfg: Config, s: Service, ready: Service, start: WirelessStart)
    requires ready.ver == s.ver && ready.handler == s.handler && ready.control == s.control
    requires Resting(s) ==> Resting(ready)
    ensures Advances(s, StartSearching(cfg, ready, start))
  {
    hide ResetProjection, TransitionTo, StartWireless, Advances;
    var reset := ResetProjection(cfg, ready.(deviceGone := false), false);
    ResetFrame(cfg, ready.(deviceGone := false), false);
    SameAdvances(s, reset);
    StartWirelessAdvances(cfg, s, reset, start);
    TransitionFrame(cfg, NextSearch(reset), Searching);
    SameAdvances(s, StartUsb(cfg, reset));
  }

  lemma AttachAdvances(cfg: Config, s: Service, ready: Service, setup: Setup, delay: nat)
    requires ready.ver == s.ver && ready.handler == s.handler && ready.control == s.control
    ensures Advances(s, Attach(cfg, ready, setup, delay))
  {
    hide TransitionTo, Established, Advances;
    TransitionFrame(cfg, ready, Connecting);
    ConnectAdvances(cfg, s, SetupChannels(TransitionTo(cfg, ready, Connecting), setup), delay);
  }

  // ----- steps -----

  lemma CallAdvances(cfg: Config, s: Service, call: Call)
    ensures Advances(s, OnCall(cfg, s, call))
  {
    hide StartSearching, StopSearching, TransitionTo, Disconnect, DisconnectIfConnected, CleanupAasdk, Advances;
    match call {
      case InitialiseCall(ok) =>
        TransitionFrame(cfg, SetupAasdk(s, true).(initialised := true), Disconnected);
        SameAdvances(s, Initialise(cfg, s, ok));
      case DeinitialiseCall =>
        StopSearchingSame(cfg, s);
        DisconnectSame(cfg, StopSearching(cfg, s));
        var idle := DisconnectIfConnected(cfg, StopSearching(cfg, s));
        CleanupSame(cfg, idle);
        TransitionFrame(cfg, CleanupAasdk(cfg, idle).(initialised := false), Disconnected);
        SameAdvances(s, Deinitialise(cfg, s));
      case StartSearchingCall(start) => StartSearchingAdvances(cfg, s, s, start);
      case StopSearchingCall =>
        StopSearchingSame(cfg, s);
        SameAdvances(s, StopSearching(cfg, s));
      case ConnectToDeviceCall(known) =>
        TransitionFrame(cfg, s, Connecting);
        SameAdvances(s, TransitionTo(cfg, s, Connecting));
        SameAdvances(s, s);
      case DisconnectCall =>
        DisconnectSame(cfg, s);
        SameAdvances(s, Disconnect(cfg, s));
      case DeviceRemoved =>
        DisconnectSame(cfg, s);
        SameAdvances(s, DisconnectIfConnected(cfg, s));
    }
  }

  lemma HandshakeDrops(cfg: Config, s: Service, sent: SendResult)
    ensures Dropped(s, OnHandshake(cfg, s, sent)) && Dropped(s, OnDiscoveryRequest(cfg, s))
  {
    hide HandlerError, StopAwaiting, Ready;
    NoFaultCalm(cfg, s.(hs := StopAwaiting(s.hs)));
    if sent.Threw? && sent.fault.Some? {
      ControlErrorDrops(cfg, s.(hs := StopAwaiting(s.hs)), sent.fault.value);
    }
  }

  lemma ConnectionLostSame(cfg: Config, s: Service)
    ensures Same(s, ConnectionLost(cfg, s))
  {
    hide DisconnectIfConnected, ResetProjection;
    ResetFrame(cfg, s, false);
    DisconnectSame(cfg, ResetProjection(cfg, s, false));
  }

  lemma VideoChannelSame(cfg: Config, s: Service)
    ensures Same(s, OnVideoOpened(cfg, s)) && Same(s, OnVideoSetup(cfg, s))
    ensures Same(s, OnVideoStarted(cfg, s)) && Same(s, OnVideoStopped(cfg, s))
  {
    hide Ready;
  }

  lemma StreamSame(cfg: Config, s: Service, data: seq<byte>, started: bool)
    ensures Same(s, OnVideoFrame(cfg, s, data)) && Same(s, OnMediaAudio(cfg, s, started))
  {
    hide Ready;
  }

  lemma CallbackDrops(cfg: Config, s: Service, callback: Callback)
    requires !callback.VersionResponse?
    ensures Dropped(s, OnCallback(cfg, s, callback))
  {
    hide ChannelError, Classify, ConnectionLost, OnHandshake, OnDiscoveryRequest, OnVideoOpened, OnVideoSetup,
      OnVideoStarted, OnVideoStopped, OnVideoFrame, OnMediaAudio;
    match callback {
      case HandshakeMessage(sent) => HandshakeDrops(cfg, s, sent);
      case DiscoveryRequest => HandshakeDrops(cfg, s, SentOk);
      case ByeBye => ConnectionLostSame(cfg, s);
      case ErrorReported(source, text) => ChannelErrorDrops(cfg, s, source, Classify(source == Control, text));
      case VideoOpened => VideoChannelSame(cfg, s);
      case VideoSetup => VideoChannelSame(cfg, s);
      case VideoStarted => VideoChannelSame(cfg, s);
      case VideoStopped => VideoChannelSame(cfg, s);
      case VideoFrame(data) => StreamSame(cfg, s, data, true);
      case MediaStarted => StreamSame(cfg, s, [], true);
      case MediaStopped => StreamSame(cfg, s, [], false);
    }
  }

  lemma VersionResponseAnswers(cfg: Config, s: Service, compatible: bool, sent: SendResult)
    ensures Answers(s, OnVersionResponse(cfg, s, compatible, sent))
  {
    hide ControlError, HandlerError, TransitionTo, Ready;
    var known := NoteVersion(cfg, s);
    forall u | u in s.ver.tokens ensures Pending(s.ver.tokens, u.chain) {}
    ControlErrorDrops(cfg, known, "No compatible protocol version");
    TransitionFrame(cfg, ControlError(cfg, known, "No compatible protocol version"), Failed);
    NoFaultCalm(cfg, known);
    if sent.Threw? && sent.fault.Some? {
      ControlErrorDrops(cfg, known, sent.fault.value);
    }
  }

  lemma RetryDrops(cfg: Config, s: Service, response: nat, retry: RetryResult)
    ensures Dropped(s, RetryHandshake(cfg, s, response, retry))
  {
    hide ControlError;
    if retry.RetryThrew? {
      ControlErrorDrops(cfg, s.(hs := s.hs.(awaiting := false)), "Handshake retry failed: " + retry.what);
    }
  }

  lemma WatchdogDrops(cfg: Config, s: Service, w: Watchdog, elapsed: nat, retry: RetryResult)
    ensures Dropped(s, OnWatchdog(cfg, s, w, elapsed, retry))
  {
    hide ControlError, HandshakeTimeoutText, RetryHandshake, Acts;
    var fired := TakeWatchdog(s, w);
    ControlErrorDrops(cfg, GiveUp(fired, w.response), HandshakeTimeoutText(elapsed));
    RetryDrops(cfg, CountRetry(fired), w.response, retry);
  }

  lemma RestartAdvances(cfg: Config, s: Service, controlTimeout: bool, full: bool, start: WirelessStart)
    ensures Advances(s, OnRecoveryRestart(cfg, s, controlTimeout, full, start))
  {
    hide StartSearching, Disconnect, CleanupChannels, CleanupAasdk, Advances;
    var fired := s.(deviceGone := false);
    SameAdvances(s, fired);
    CleanupSame(cfg, ForgetSearch(fired));
    DroppedAdvances(s, CleanupChannels(cfg, ForgetSearch(fired)));
    DroppedAdvances(s, CleanupAasdk(cfg, ForgetSearch(fired)));
    DisconnectSame(cfg, fired);
    StartSearchingAdvances(cfg, s, Disconnect(cfg, fired), start);
  }

  lemma ReinitAdvances(cfg: Config, s: Service, full: bool, ok: bool, start: WirelessStart)
    ensures Advances(s, OnRecoveryReinit(cfg, s, full, ok, start))
  {
    hide StartSearching, TransitionTo, Advances;
    SameAdvances(s, s);
    TransitionFrame(cfg, SetupAasdk(s, false), Failed);
    SameAdvances(s, TransitionTo(cfg, SetupAasdk(s, false), Failed));
    StartSearchingAdvances(cfg, s, SetupAasdk(s, true), start);
    StartSearchingAdvances(cfg, s, s, start);
  }

  lemma IdleDisconnectSame(cfg: Config, s: Service)
    ensures Same(s, OnIdleDisconnect(cfg, s))
  {
    hide Disconnect;
    DisconnectSame(cfg, s.(deviceGone := true));
  }

  lemma IdleTeardownDrops(cfg: Config, s: Service)
    ensures Dropped(s, OnIdleTeardown(cfg, s))
  {
    hide CleanupAasdk;
    if s.conn == Disconnected {
      CleanupSame(cfg, ForgetSearch(s));
    }
  }

  lemma IdleReinitAdvances(cfg: Config, s: Service, ok: bool, start: WirelessStart)
    ensures Advances(s, OnIdleReinit(cfg, s, ok, start))
  {
    hide StartSearching, TransitionTo;
    TransitionFrame(cfg, SetupAasdk(s, false), Failed);
    SameAdvances(s, TransitionTo(cfg, SetupAasdk(s, false), Failed));
    StartSearchingAdvances(cfg, s, SetupAasdk(s, true), start);
    SameAdvances(s, s);
  }

  lemma TimerAdvances(cfg: Config, s: Service, timer: Timer)
    requires TimerPending(s, timer)
    ensures Advances(s, OnTimer(cfg, s, timer))
  {
    hide StartSearching, OnRecoveryRestart, OnRecoveryReinit, OnIdleDisconnect, OnIdleTeardown, OnIdleReinit,
      VersionTimer, OnWatchdog, TransitionTo, Heartbeat, Advances;
    match timer {
      case HeartbeatTimer => SameAdvances(s, OnHeartbeat(s));
      case WatchdogTimer(w, elapsed, retry) =>
        WatchdogDrops(cfg, s, w, elapsed, retry);
        DroppedAdvances(s, OnWatchdog(cfg, s, w, elapsed, retry));
      case RequestTimer(token) => VersionTimerAdvances(cfg, s, token);
      case HubStartTimer =>
        TransitionFrame(cfg, s.(search := s.search.(startupTimers := s.search.startupTimers - 1)), Disconnected);
        SameAdvances(s, StartupTimer(cfg, s));
      case RecoveryRestart(controlTimeout, full, start) => RestartAdvances(cfg, s, controlTimeout, full, start);
      case RecoveryReinit(full, ok, start) => ReinitAdvances(cfg, s, full, ok, start);
      case ImmediateRestart(start) => StartSearchingAdvances(cfg, s, s.(deviceGone := false), start);
      case IdleRecoveryDisconnect =>
        IdleDisconnectSame(cfg, s);
        SameAdvances(s, OnIdleDisconnect(cfg, s));
      case IdleRecoveryTeardown =>
        IdleTeardownDrops(cfg, s);
        DroppedAdvances(s, OnIdleTeardown(cfg, s));
      case IdleRecoveryReinit(ok, start) => IdleReinitAdvances(cfg, s, ok, start);
    }
  }

  lemma HubAdvances(cfg: Config, s: Service, promise: HubPromise, outcome: HubResult)
    ensures Advances(s, SettleHub(cfg, s, promise, outcome))
  {
    hide Attach, Advances;
    var taken := s.(search := s.search.(promises := s.search.promises - {promise}));
    SameAdvances(s, taken);
    if outcome.Direct? {
      var attachments := Attached(taken.search.attachments, promise.generation);
      AttachAdvances(cfg, s, taken.(search := taken.search.(attachments := attachments)), outcome.setup, outcome.delay);
    }
  }

  lemma AcceptAdvances(cfg: Config, s: Service, accepted: bool, setup: Setup, delay: nat)
    requires s.search.accepts > 0
    ensures Advances(s, OnTcpAccepted(cfg, s, accepted, setup, delay))
  {
    hide Established, TransitionTo, SetupChannels, Advances, Same;
    var taken := s.(search := s.search.(accepts := s.search.accepts - 1));
    if accepted {
      SetupChannelsSame(taken, setup);
      ConnectAdvances(cfg, s, SetupChannels(taken, setup), delay);
    } else {
      DisconnectedSame(cfg, s, taken);
      SameAdvances(s, TransitionTo(cfg, taken, Disconnected));
    }
  }

  lemma SetupChannelsSame(s: Service, setup: Setup)
    ensures var t := SetupChannels(s, setup);
            t.ver == s.ver && t.handler == s.handler && (s.control ==> t.control)
  {
  }

  lemma DisconnectedSame(cfg: Config, s: Service, taken: Service)
    requires taken.ver == s.ver && taken.handler == s.handler && taken.control == s.control
    ensures Same(s, TransitionTo(cfg, taken, Disconnected))
  {
    hide TransitionTo;
    TransitionFrame(cfg, taken, Disconnected);
  }

  lemma ArrivalAdvances(cfg: Config, s: Service, arrival: Arrival)
    requires ArrivalPending(s, arrival)
    ensures Advances(s, OnArrival(cfg, s, arrival))
  {
    hide SettleVersionRequest, SettleHub, Attach, OnTcpAccepted, Advances;
    match arrival {
      case RequestSettled(token, settlement) => SettleAdvances(cfg, s, token.chain, settlement);
      case HubSettled(promise, outcome) => HubAdvances(cfg, s, promise, outcome);
      case ScanAttached(setup, delay) =>
        AttachAdvances(cfg, s, s, setup, delay);
        SameAdvances(s, s);
      case TcpAccepted(accepted, setup, delay) => AcceptAdvances(cfg, s, accepted, setup, delay);
    }
  }

  /** Every step begins one chain or continues pending ones. */
  lemma StepAdvances(cfg: Config, s: Service, e: Event)
    requires Enabled(cfg, s, e)
    ensures var t := Step(cfg, s, e);
            && (Continues(s.ver, t.ver) || Begins(s.ver, t.ver))
            && if IsVersionResponse(e) then Answers(s, t) else Advances(s, t)
  {
    hide OnCall, OnCallback, OnTimer, OnArrival, TimerPending, ArrivalPending, Continues, Begins;
    match e {
      case Tick(_) => SameAdvances(s, Step(cfg, s, e));
      case Called(call) => CallAdvances(cfg, s, call);
      case CalledBack(callback) => CallbackAdvances(cfg, s, callback);
      case Fired(timer) => TimerAdvances(cfg, s, timer);
      case Arrived(arrival) => ArrivalAdvances(cfg, s, arrival);
    }
  }

  lemma CallbackAdvances(cfg: Config, s: Service, callback: Callback)
    ensures var t := OnCallback(cfg, s, callback);
            if callback.VersionResponse? then Answers(s, t) else Advances(s, t)
  {
    hide Answers, Advances, OnVersionResponse;
    if callback.VersionResponse? {
      VersionResponseAnswers(cfg, s, callback.compatible, callback.sent);
    } else {
      CallbackDrops(cfg, s, callback);
      DroppedAdvances(s, OnCallback(cfg, s, callback));
    }
  }
}
