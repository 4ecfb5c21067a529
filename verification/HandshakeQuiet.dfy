/** What ends the wait for the handshake, and that only a version response starts it again. */
module HandshakeQuiet {
  import opened ErrorText
  import opened ServiceState
  import opened Wrappers
  import opened ServiceSteps
  import opened ServiceEvents
  import opened ServiceProofs

  /** Nothing starts the wait between s and t. */
  predicate Calm(s: Service, t: Service) {
    !s.hs.awaiting ==> !t.hs.awaiting
  }

  lemma ResetEndsWait(cfg: Config, s: Service, established: bool)
    ensures !ResetProjection(cfg, s, established).hs.awaiting
    ensures !CleanupChannels(cfg, s).hs.awaiting && !CleanupAasdk(cfg, s).hs.awaiting
  {
    hide Ready, ClearFlags;
  }

  lemma DisconnectCalm(cfg: Config, s: Service)
    ensures Calm(s, Disconnect(cfg, s)) && Calm(s, DisconnectIfConnected(cfg, s))
    ensures s.conn == Connected || s.conn == Connecting ==> !Disconnect(cfg, s).hs.awaiting
    ensures s.conn == Connected ==> !DisconnectIfConnected(cfg, s).hs.awaiting
  {
    hide TransitionTo, ResetProjection;
    var reset := ResetProjection(cfg, TransitionTo(cfg, s, Disconnecting), false);
    ResetEndsWait(cfg, TransitionTo(cfg, s, Disconnecting), false);
    TransitionFrame(cfg, reset, Disconnected);
  }

  lemma ImmediateRecoveryCalm(cfg: Config, s: Service)
    ensures Calm(s, ImmediateRecovery(cfg, s))
  {
    hide TransitionTo, CleanupChannels, Disconnect, ScheduleRecovery;
    var idle := Disconnect(cfg, ScheduleRecovery(s));
    ResetEndsWait(cfg, idle, false);
    TransitionFrame(cfg, CleanupChannels(cfg, idle), Disconnected);
  }

  lemma RecoverCalm(cfg: Config, s: Service, cls: ErrorClass)
    ensures Calm(s, Recover(cfg, s, cls))
  {
    hide ImmediateRecovery, Disconnect;
    ImmediateRecoveryCalm(cfg, s);
    DisconnectCalm(cfg, s.(deviceGone := true));
  }

  lemma HandleErrorCalm(cfg: Config, s: Service, source: Source, cls: ErrorClass)
    ensures Calm(s, HandleError(cfg, s, source, cls))
  {
    hide Recover, Ready, StopStream, ForgetErrors;
    assert NoteError(cfg, s, source).hs == s.hs;
    RecoverCalm(cfg, NoteError(cfg, s, source), cls);
  }

  /** A control error ends the wait; no error starts it. */
  lemma ChannelErrorCalm(cfg: Config, s: Service, source: Source, cls: ErrorClass)
    ensures Calm(s, ChannelError(cfg, s, source, cls))
    ensures source == Control && !s.teardown ==> !ChannelError(cfg, s, source, cls).hs.awaiting
  {
    hide HandleError, CountError, RecordGrace;
    HandleErrorCalm(cfg, OutdateWait(s), source, cls);
    HandleErrorCalm(cfg, Escalate(CountPreHandshake(cfg, s)), source, cls);
    HandleErrorCalm(cfg, s, source, cls);
  }

  lemma ControlErrorCalm(cfg: Config, s: Service, text: string)
    ensures Calm(s, ControlError(cfg, s, text)) && Calm(s, HandlerError(cfg, s, Some(text)))
  {
    hide ChannelError, Classify;
    ChannelErrorCalm(cfg, s, Control, Classify(true, text));
  }

  lemma SendCalm(cfg: Config, s: Service, chain: nat)
    ensures Calm(s, SendVersionRequest(cfg, s, chain))
  {
    hide ControlError, VersionTimeoutText;
    var ver := s.ver.(first := if s.ver.first == 0 then s.now else s.ver.first);
    if s.now > ver.first {
      ControlErrorCalm(cfg, s.(ver := ver), VersionTimeoutText(s.now - ver.first, ver.attempts));
    }
  }

  lemma RequestTimeoutCalm(cfg: Config, s: Service, chain: nat, native2: bool, text: string)
    ensures Calm(s, RequestTimeout(cfg, s, chain, native2, text))
  {
    hide ControlError, ImmediateRecovery, RetryDelay, VersionAttemptsText;
    var counted := s.(ver := s.ver.(native2 := if native2 then s.ver.native2 + 1 else 0));
    ControlErrorCalm(cfg, counted, text);
    ControlErrorCalm(cfg, counted, VersionAttemptsText(counted.ver.attempts));
    ImmediateRecoveryCalm(cfg, counted);
  }

  lemma SettleCalm(cfg: Config, s: Service, chain: nat, settlement: Settlement)
    ensures Calm(s, SettleVersionRequest(cfg, s, chain, settlement))
  {
    hide ControlError, RequestTimeout;
    var taken := s.(ver := s.ver.(tokens := s.ver.tokens - {InFlight(chain)}));
    match settlement {
      case Delivered =>
      case InProgress =>
      case Rejected(text) => ControlErrorCalm(cfg, taken, text);
      case UsbTimeout(native2, text) => RequestTimeoutCalm(cfg, taken, chain, native2, text);
    }
  }

  lemma EstablishedEndsWait(cfg: Config, s: Service, delay: nat)
    ensures !Established(cfg, s, delay).hs.awaiting
  {
    hide ResetProjection, SendVersionRequest, TransitionTo, CreateSession, Ready, ResetRequests;
    var reset := ResetProjection(cfg, s, true);
    ResetEndsWait(cfg, s, true);
    SendCalm(cfg, NewHandler(reset), reset.ver.chains);
    TransitionFrame(cfg, BeginSession(StartRequests(cfg, reset, delay)), Connected);
  }

  lemma StartSearchingEndsWait(cfg: Config, s: Service, start: WirelessStart)
    ensures !StartSearching(cfg, s, start).hs.awaiting
  {
    hide ResetProjection, TransitionTo, Established, SetupChannels;
    var reset := ResetProjection(cfg, s.(deviceGone := false), false);
    ResetEndsWait(cfg, s.(deviceGone := false), false);
    TransitionFrame(cfg, reset, Connecting);
    var connecting := TransitionTo(cfg, reset, Connecting);
    TransitionFrame(cfg, Listening(connecting), Searching);
    TransitionFrame(cfg, connecting, Disconnected);
    if start.Outbound? {
      EstablishedEndsWait(cfg, SetupChannels(connecting, start.setup), start.delay);
    }
    TransitionFrame(cfg, NextSearch(reset), Searching);
  }

  lemma StopSearchingCalm(cfg: Config, s: Service)
    ensures Calm(s, StopSearching(cfg, s))
    ensures s.conn == Searching ==> !StopSearching(cfg, s).hs.awaiting
  {
    hide ResetProjection, TransitionTo;
    ResetEndsWait(cfg, HubStopped(s), false);
    TransitionFrame(cfg, ResetProjection(cfg, HubStopped(s), false), Disconnected);
  }

  // ----- every step but a version response -----

  /** The API calls that reset the projection status. */
  predicate CallResets(s: Service, call: Call) {
    match call
    case InitialiseCall(_) => false
    case DeinitialiseCall => s.initialised
    case StartSearchingCall(_) => true
    case StopSearchingCall => s.conn == Searching
    case ConnectToDeviceCall(_) => false
    case DisconnectCall => s.conn == Connected || s.conn == Connecting
    case DeviceRemoved => s.conn == Connected
  }

  lemma CallCalm(cfg: Config, s: Service, call: Call)
    ensures Calm(s, OnCall(cfg, s, call))
    ensures CallResets(s, call) ==> !OnCall(cfg, s, call).hs.awaiting
  {
    hide StartSearching, StopSearching, TransitionTo, Disconnect, DisconnectIfConnected, CleanupAasdk, SetupAasdk;
    match call {
      case InitialiseCall(ok) =>
        TransitionFrame(cfg, SetupAasdk(s, true).(initialised := true), Disconnected);
        SetupKeepsWait(s, true);
        SetupKeepsWait(s, false);
      case DeinitialiseCall =>
        var idle := DisconnectIfConnected(cfg, StopSearching(cfg, s));
        ResetEndsWait(cfg, idle, false);
        TransitionFrame(cfg, CleanupAasdk(cfg, idle).(initialised := false), Disconnected);
      case StartSearchingCall(start) => StartSearchingEndsWait(cfg, s, start);
      case StopSearchingCall => StopSearchingCalm(cfg, s);
      case ConnectToDeviceCall(known) => TransitionFrame(cfg, s, Connecting);
      case DisconnectCall => DisconnectCalm(cfg, s);
      case DeviceRemoved => DisconnectCalm(cfg, s);
    }
  }

  lemma SetupKeepsWait(s: Service, ok: bool)
    ensures SetupAasdk(s, ok).hs == s.hs
  {
  }

  lemma CallbackCalm(cfg: Config, s: Service, callback: Callback)
    requires !callback.VersionResponse?
    ensures Calm(s, OnCallback(cfg, s, callback))
  {
    hide ChannelError, HandlerError, Classify, DisconnectIfConnected, ResetProjection, Ready;
    match callback {
      case HandshakeMessage(sent) =>
        if sent.Threw? && sent.fault.Some? {
          ControlErrorCalm(cfg, s.(hs := StopAwaiting(s.hs)), sent.fault.value);
        }
        NoFaultCalm(cfg, s.(hs := StopAwaiting(s.hs)));
      case ByeBye =>
        ResetEndsWait(cfg, s, false);
        DisconnectCalm(cfg, ResetProjection(cfg, s, false));
      case ErrorReported(source, text) => ChannelErrorCalm(cfg, s, source, Classify(source == Control, text));
      case DiscoveryRequest =>
      case VideoOpened =>
      case VideoSetup =>
      case VideoStarted =>
      case VideoStopped =>
      case VideoFrame(data) =>
      case MediaStarted =>
      case MediaStopped =>
    }
  }

  lemma NoFaultCalm(cfg: Config, s: Service)
    ensures HandlerError(cfg, s, None) == s
  {
  }

  lemma RecoveryCalm(cfg: Config, s: Service, controlTimeout: bool, full: bool, ok: bool, start: WirelessStart)
    ensures Calm(s, OnRecoveryRestart(cfg, s, controlTimeout, full, start))
    ensures s.conn != Searching ==> !OnRecoveryRestart(cfg, s, controlTimeout, full, start).hs.awaiting
    ensures Calm(s, OnRecoveryReinit(cfg, s, full, ok, start))
    ensures s.conn != Searching && (full ==> ok) ==> !OnRecoveryReinit(cfg, s, full, ok, start).hs.awaiting
  {
    hide StartSearching, Disconnect, CleanupChannels, CleanupAasdk, TransitionTo, SetupAasdk, ForgetSearch;
    ResetEndsWait(cfg, ForgetSearch(s.(deviceGone := false)), false);
    StartSearchingEndsWait(cfg, Disconnect(cfg, s.(deviceGone := false)), start);
    SetupKeepsWait(s, false);
    TransitionFrame(cfg, SetupAasdk(s, false), Failed);
    StartSearchingEndsWait(cfg, SetupAasdk(s, true), start);
    StartSearchingEndsWait(cfg, s, start);
  }

  lemma IdleStopCalm(cfg: Config, s: Service)
    ensures Calm(s, OnIdleDisconnect(cfg, s)) && Calm(s, OnIdleTeardown(cfg, s))
    ensures s.conn == Connected ==> !OnIdleDisconnect(cfg, s).hs.awaiting
    ensures s.conn == Disconnected ==> !OnIdleTeardown(cfg, s).hs.awaiting
  {
    hide Disconnect, CleanupAasdk, ForgetSearch;
    DisconnectCalm(cfg, s.(deviceGone := true));
    ResetEndsWait(cfg, ForgetSearch(s), false);
  }

  lemma IdleReinitCalm(cfg: Config, s: Service, ok: bool, start: WirelessStart)
    ensures Calm(s, OnIdleReinit(cfg, s, ok, start))
    ensures s.conn != Searching && ok ==> !OnIdleReinit(cfg, s, ok, start).hs.awaiting
  {
    hide StartSearching, TransitionTo, SetupAasdk;
    if s.conn != Searching {
      if ok {
        StartSearchingEndsWait(cfg, SetupAasdk(s, true), start);
      } else {
        SetupKeepsWait(s, false);
        TransitionFrame(cfg, SetupAasdk(s, false), Failed);
      }
    }
  }

  lemma SearchTimerCalm(cfg: Config, s: Service)
    requires s.search.startupTimers > 0
    ensures Calm(s, StartupTimer(cfg, s))
  {
    hide TransitionTo;
    TransitionFrame(cfg, s.(search := s.search.(startupTimers := s.search.startupTimers - 1)), Disconnected);
  }

  /** The timers that reset the projection status when they fire. */
  predicate TimerResets(s: Service, timer: Timer) {
    match timer
    case HeartbeatTimer => false
    case WatchdogTimer(_, _, _) => false
    case RequestTimer(_) => false
    case HubStartTimer => false
    case RecoveryRestart(_, _, _) => s.conn != Searching
    case RecoveryReinit(full, ok, _) => s.conn != Searching && (full ==> ok)
    case ImmediateRestart(_) => true
    case IdleRecoveryDisconnect => s.conn == Connected
    case IdleRecoveryTeardown => s.conn == Disconnected
    case IdleRecoveryReinit(ok, _) => s.conn != Searching && ok
  }

  lemma TimerCalm(cfg: Config, s: Service, timer: Timer)
    requires TimerPending(s, timer)
    ensures Calm(s, OnTimer(cfg, s, timer))
    ensures TimerResets(s, timer) ==> !OnTimer(cfg, s, timer).hs.awaiting
  {
    hide StartSearching, OnRecoveryRestart, OnRecoveryReinit, OnIdleDisconnect, OnIdleTeardown, OnIdleReinit,
      StartupTimer, SendVersionRequest, RetryHandshake, ControlError, Heartbeat, HandshakeTimeoutText;
    match timer {
      case HeartbeatTimer =>
      case WatchdogTimer(w, elapsed, retry) =>
      case RequestTimer(token) => SendCalm(cfg, s.(ver := s.ver.(tokens := s.ver.tokens - {token})), token.chain);
      case HubStartTimer => SearchTimerCalm(cfg, s);
      case RecoveryRestart(controlTimeout, full, start) => RecoveryCalm(cfg, s, controlTimeout, full, true, start);
      case RecoveryReinit(full, ok, start) => RecoveryCalm(cfg, s, true, full, ok, start);
      case ImmediateRestart(start) => StartSearchingEndsWait(cfg, s.(deviceGone := false), start);
      case IdleRecoveryDisconnect => IdleStopCalm(cfg, s);
      case IdleRecoveryTeardown => IdleStopCalm(cfg, s);
      case IdleRecoveryReinit(ok, start) => IdleReinitCalm(cfg, s, ok, start);
    }
  }

  /** The arrivals that establish a connection. */
  predicate Connects(s: Service, arrival: Arrival) {
    match arrival
    case RequestSettled(_, _) => false
    case HubSettled(p, outcome) => p.generation == s.search.generation && s.conn == Searching && outcome.Direct?
    case ScanAttached(_, _) => s.conn == Searching
    case TcpAccepted(accepted, _, _) => accepted
  }

  lemma AttachEndsWait(cfg: Config, s: Service, setup: Setup, delay: nat)
    ensures !Attach(cfg, s, setup, delay).hs.awaiting
  {
    hide Established, SetupChannels, TransitionTo;
    EstablishedEndsWait(cfg, SetupChannels(TransitionTo(cfg, s, Connecting), setup), delay);
  }

  lemma HubCalm(cfg: Config, s: Service, promise: HubPromise, outcome: HubResult)
    ensures Calm(s, SettleHub(cfg, s, promise, outcome))
    ensures Connects(s, HubSettled(promise, outcome)) ==> !SettleHub(cfg, s, promise, outcome).hs.awaiting
  {
    hide Attach;
    if outcome.Direct? {
      var taken := s.(search := s.search.(promises := s.search.promises - {promise}));
      var attachments := Attached(taken.search.attachments, promise.generation);
      AttachEndsWait(cfg, taken.(search := taken.search.(attachments := attachments)), outcome.setup, outcome.delay);
    }
  }

  lemma AcceptCalm(cfg: Config, s: Service, accepted: bool, setup: Setup, delay: nat)
    requires s.search.accepts > 0
    ensures Calm(s, OnTcpAccepted(cfg, s, accepted, setup, delay))
    ensures accepted ==> !OnTcpAccepted(cfg, s, accepted, setup, delay).hs.awaiting
  {
    hide Established, SetupChannels, TransitionTo;
    var taken := s.(search := s.search.(accepts := s.search.accepts - 1));
    EstablishedEndsWait(cfg, SetupChannels(taken, setup), delay);
    TransitionFrame(cfg, taken, Disconnected);
  }

  lemma ArrivalCalm(cfg: Config, s: Service, arrival: Arrival)
    requires ArrivalPending(s, arrival)
    ensures Calm(s, OnArrival(cfg, s, arrival))
    ensures Connects(s, arrival) ==> !OnArrival(cfg, s, arrival).hs.awaiting
  {
    hide SettleVersionRequest, SettleHub, Attach, OnTcpAccepted;
    match arrival {
      case RequestSettled(token, settlement) => SettleCalm(cfg, s, token.chain, settlement);
      case HubSettled(promise, outcome) => HubCalm(cfg, s, promise, outcome);
      case ScanAttached(setup, delay) => AttachEndsWait(cfg, s, setup, delay);
      case TcpAccepted(accepted, setup, delay) => AcceptCalm(cfg, s, accepted, setup, delay);
    }
  }

  predicate IsVersionResponse(e: Event) {
    e.CalledBack? && e.callback.VersionResponse?
  }

  lemma StepCalm(cfg: Config, s: Service, e: Event)
    requires Enabled(cfg, s, e) && !IsVersionResponse(e) && !s.hs.awaiting
    ensures !Step(cfg, s, e).hs.awaiting
  {
    hide OnCall, OnCallback, OnTimer, OnArrival, TimerPending, ArrivalPending;
    match e {
      case Tick(_) =>
      case Called(call) => CallCalm(cfg, s, call);
      case CalledBack(callback) => CallbackCalm(cfg, s, callback);
      case Fired(timer) => TimerCalm(cfg, s, timer);
      case Arrived(arrival) => ArrivalCalm(cfg, s, arrival);
    }
  }

  // ----- runs -----

  /** The state after further events; None when one of them was not enabled. */
  function RunFrom(cfg: Config, s: Service, events: seq<Event>): Option<Service> {
    if |events| == 0 then Some(s)
    else
      match RunFrom(cfg, s, events[..|events| - 1])
      case None => None
      case Some(t) => if Enabled(cfg, t, events[|events| - 1]) then Some(Step(cfg, t, events[|events| - 1])) else None
  }

  /** Events after which no handshake is awaited: a handshake message or a discovery request, a
      projection reset, or an error of the control channel outside a teardown. */
  predicate EndsWait(s: Service, e: Event) {
    match e
    case Tick(_) => false
    case Called(call) => CallResets(s, call)
    case CalledBack(callback) =>
      || ((callback.HandshakeMessage? || callback.DiscoveryRequest?) && s.control)
      || callback.ByeBye?
      || (callback.ErrorReported? && callback.source == Control && !s.teardown)
    case Fired(timer) => TimerResets(s, timer)
    case Arrived(arrival) => Connects(s, arrival)
  }

  lemma CallbackEndsWait(cfg: Config, s: Service, callback: Callback)
    requires EndsWait(s, CalledBack(callback))
    ensures !OnCallback(cfg, s, callback).hs.awaiting
  {
    hide ChannelError, HandlerError, Classify, DisconnectIfConnected, ResetProjection, Ready;
    if callback.ErrorReported? {
      ChannelErrorCalm(cfg, s, callback.source, Classify(callback.source == Control, callback.text));
    } else if callback.ByeBye? {
      ResetEndsWait(cfg, s, false);
      DisconnectCalm(cfg, ResetProjection(cfg, s, false));
    } else if callback.HandshakeMessage? {
      NoFaultCalm(cfg, s.(hs := StopAwaiting(s.hs)));
      if callback.sent.Threw? && callback.sent.fault.Some? {
        ControlErrorCalm(cfg, s.(hs := StopAwaiting(s.hs)), callback.sent.fault.value);
      }
    }
  }

  lemma EndsWaitOk(cfg: Config, s: Service, e: Event)
    requires Enabled(cfg, s, e) && EndsWait(s, e)
    ensures !Step(cfg, s, e).hs.awaiting
  {
    hide OnCall, OnCallback, OnTimer, OnArrival, TimerPending, ArrivalPending, CallResets, TimerResets, Connects;
    match e {
      case Called(call) => CallCalm(cfg, s, call);
      case CalledBack(callback) => CallbackEndsWait(cfg, s, callback);
      case Fired(timer) => TimerCalm(cfg, s, timer);
      case Arrived(arrival) => ArrivalCalm(cfg, s, arrival);
    }
  }

  /** From the event that ends the wait until the next version response, whatever else happens,
      no watchdog does anything when it fires: no retry is sent and no timeout is raised. */
  lemma {:induction false} NoWatchdogUntilNextResponse(cfg: Config, s: Service, e: Event, later: seq<Event>)
    requires Enabled(cfg, s, e) && EndsWait(s, e)
    requires forall i :: 0 <= i < |later| ==> !IsVersionResponse(later[i])
    ensures var end := RunFrom(cfg, Step(cfg, s, e), later);
            end.Some? ==> !end.value.hs.awaiting && forall w :: !Acts(end.value, w)
    decreases |later|
  {
    hide Step, Enabled, EndsWait;
    if |later| == 0 {
      EndsWaitOk(cfg, s, e);
    } else {
      var before, last := later[..|later| - 1], later[|later| - 1];
      NoWatchdogUntilNextResponse(cfg, s, e, before);
      match RunFrom(cfg, Step(cfg, s, e), before) {
        case None =>
        case Some(t) =>
          if Enabled(cfg, t, last) {
            StepCalm(cfg, t, last);
          }
      }
    }
  }

  /** A fired watchdog does something beyond using up its timer exactly when it acts. */
  lemma WatchdogWorksIffActs(cfg: Config, s: Service, w: Watchdog, elapsed: nat, retry: RetryResult)
    ensures OnWatchdog(cfg, s, w, elapsed, retry) != TakeWatchdog(s, w) <==> Acts(s, w)
  {
    hide ControlError, HandshakeTimeoutText;
    var fired := TakeWatchdog(s, w);
    var counted := CountRetry(fired);
    ControlErrorCalm(cfg, GiveUp(fired, w.response), HandshakeTimeoutText(elapsed));
    if retry.RetryThrew? {
      ControlErrorCalm(cfg, counted.(hs := counted.hs.(awaiting := false)), "Handshake retry failed: " + retry.what);
    }
  }
}
