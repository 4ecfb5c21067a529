/** The labelled steps of the service: API calls, channel callbacks, timers and settled promises. */
module ServiceEvents {
  import opened Bytes
  import opened ErrorText
  import opened ServiceState
  import opened Wrappers
  import opened ServiceSteps
  import H264

  /** Whether the send inside a control callback goes through; a fault carries its text when the
      handler passes it on. */
  datatype SendResult = SentOk | Threw(fault: Option<string>)

  datatype RetryResult = Transmitted | NoChannel | RetryThrew(what: string)

  datatype Call =
    | InitialiseCall(ok: bool)
    | DeinitialiseCall
    | StartSearchingCall(start: WirelessStart)
    | StopSearchingCall
    | ConnectToDeviceCall(known: bool)
    | DisconnectCall
    | DeviceRemoved

  datatype Callback =
    // control channel
    | VersionResponse(compatible: bool, sent: SendResult)
    | HandshakeMessage(sent: SendResult)
    | DiscoveryRequest
    | ByeBye
    // media channels
    | VideoOpened
    | VideoSetup
    | VideoStarted
    | VideoStopped
    | VideoFrame(data: seq<byte>)
    | MediaStarted
    | MediaStopped
    // any channel
    | ErrorReported(source: Source, text: string)

  datatype Timer =
    | HeartbeatTimer
    | WatchdogTimer(watchdog: Watchdog, elapsed: nat, retry: RetryResult)
    | RequestTimer(token: Token)
    | HubStartTimer
    | RecoveryRestart(controlTimeout: bool, full: bool, start: WirelessStart)
    | RecoveryReinit(full: bool, ok: bool, start: WirelessStart)
    | ImmediateRestart(start: WirelessStart)
    | IdleRecoveryDisconnect
    | IdleRecoveryTeardown
    | IdleRecoveryReinit(ok: bool, start: WirelessStart)

  /** Settled promises and accepted connections. */
  datatype Arrival =
    | RequestSettled(token: Token, settlement: Settlement)
    | HubSettled(promise: HubPromise, outcome: HubResult)
    | ScanAttached(setup: Setup, delay: nat)
    | TcpAccepted(accepted: bool, setup: Setup, delay: nat)

  datatype Event =
    | Tick(ms: nat)
    | Called(call: Call)
    | CalledBack(callback: Callback)
    | Fired(timer: Timer)
    | Arrived(arrival: Arrival)

  predicate TimerPending(s: Service, timer: Timer) {
    match timer
    case WatchdogTimer(w, _, _) => w in s.hs.watchdogs
    case RequestTimer(t) => t in s.ver.tokens && t.Waiting? && t.due <= s.now
    case HubStartTimer => s.search.startupTimers > 0
    case _ => true
  }

  predicate ArrivalPending(s: Service, arrival: Arrival) {
    match arrival
    case RequestSettled(t, _) => t in s.ver.tokens && t.InFlight?
    case HubSettled(p, _) => p in s.search.promises
    case ScanAttached(_, _) => true
    case TcpAccepted(_, _, _) => s.search.accepts > 0
  }

  /** Timers fire only while pending and not early, and a promise settles once. */
  predicate Enabled(cfg: Config, s: Service, e: Event) {
    match e
    case Tick(_) => true
    case Called(_) => true
    case CalledBack(_) => true
    case Fired(timer) => TimerPending(s, timer)
    case Arrived(arrival) => ArrivalPending(s, arrival)
  }

  // ----- control channel callbacks -----

  function ArmWatchdog(s: Service): Service {
    var epoch := s.hs.epoch + 1;
    s.(hs := LogHandshake(s.hs.(awaiting := true, epoch := epoch, responses := s.hs.responses + 1,
                                watchdogs := s.hs.watchdogs + {Watchdog(epoch, false, s.hs.responses)}),
                          Armed(s.hs.responses)))
  }

  function NoteVersion(cfg: Config, s: Service): Service {
    Publish(cfg, s.(ver := ResetRequests(s.ver).(native2 := 0), proj := AddNote(s.proj.(version := true), VersionNote)))
  }

  function OnVersionResponse(cfg: Config, s: Service, compatible: bool, result: SendResult): Service {
    if !s.control then s
    else
      var known := NoteVersion(cfg, s);
      if !compatible then
        TransitionTo(cfg, ControlError(cfg, known, "No compatible protocol version"), Failed)
      else
        match result
        case SentOk => ArmWatchdog(known)
        case Threw(fault) => HandlerError(cfg, known, fault)
  }

  /** A handshake or discovery message ends the wait. */
  function StopAwaiting(hs: Handshake): Handshake {
    LogHandshake(if hs.awaiting then hs.(awaiting := false, retries := 0) else hs, Cleared)
  }

  function OnHandshake(cfg: Config, s: Service, result: SendResult): Service {
    if !s.control then s
    else
      var heard := s.(hs := StopAwaiting(s.hs));
      match result
      case SentOk => heard
      case Threw(fault) => HandlerError(cfg, heard, fault)
  }

  function OnDiscoveryRequest(cfg: Config, s: Service): Service {
    if !s.control then s
    else
      Publish(cfg, s.(hs := StopAwaiting(s.hs), proj := AddNote(s.proj.(discovery := true), DiscoveryNote)))
  }

  /** Whether a fired watchdog does anything. */
  predicate Acts(s: Service, w: Watchdog) {
    && s.hs.awaiting && s.hs.epoch == w.epoch && !s.proj.discovery
    && (s.conn == Connected || s.conn == Connecting)
  }

  function TakeWatchdog(s: Service, w: Watchdog): Service {
    s.(hs := s.hs.(watchdogs := s.hs.watchdogs - {w}))
  }

  function CountRetry(s: Service): Service {
    s.(hs := s.hs.(retries := s.hs.retries + 1))
  }

  function GiveUp(s: Service, response: nat): Service {
    s.(hs := LogHandshake(s.hs.(awaiting := false), TimedOut(response)))
  }

  function OnWatchdog(cfg: Config, s: Service, w: Watchdog, elapsed: nat, retry: RetryResult): Service {
    var fired := TakeWatchdog(s, w);
    if !Acts(s, w) then fired
    else if !w.second && s.hs.retries < cfg.handshakeRetries then
      RetryHandshake(cfg, CountRetry(fired), w.response, retry)
    else ControlError(cfg, GiveUp(fired, w.response), HandshakeTimeoutText(elapsed))
  }

  function RetryHandshake(cfg: Config, s: Service, response: nat, retry: RetryResult): Service {
    match retry
    case RetryThrew(what) =>
      ControlError(cfg, s.(hs := s.hs.(awaiting := false)), "Handshake retry failed: " + what)
    case Transmitted => RearmWatchdog(s.(hs := LogHandshake(s.hs, RetrySent(response))), response)
    case NoChannel => RearmWatchdog(s, response)
  }

  function RearmWatchdog(s: Service, response: nat): Service {
    var epoch := s.hs.epoch + 1;
    s.(hs := s.hs.(epoch := epoch, watchdogs := s.hs.watchdogs + {Watchdog(epoch, true, response)}))
  }

  // ----- video -----

  function OnVideoOpened(cfg: Config, s: Service): Service {
    Publish(cfg, s.(proj := AddNote(s.proj.(channelOpen := true), OpenedNote)))
  }

  function OnVideoSetup(cfg: Config, s: Service): Service {
    Publish(cfg, s.(proj := AddNote(s.proj.(configured := true), ConfiguredNote)))
  }

  function OnVideoStarted(cfg: Config, s: Service): Service {
    Publish(cfg, s.(proj := AddNote(s.proj.(started := true), StartedNote)))
  }

  function OnMediaAudio(cfg: Config, s: Service, started: bool): Service {
    Publish(cfg, s.(proj := s.proj.(audioStarted := started)))
  }

  function OnVideoStopped(cfg: Config, s: Service): Service {
    Publish(cfg, s.(proj := AddNote(s.proj.(started := false, frame := false), StoppedNote)))
  }

  /** onVideoChannelUpdate: in H.264 passthrough only a slice counts, and nothing is published. */
  function OnVideoFrame(cfg: Config, s: Service, data: seq<byte>): Service {
    if !cfg.videoEnabled || s.proj.frame || (cfg.h264 && !H264.HasVcl(data)) then s
    else
      var framed := s.(proj := AddNote(s.proj.(frame := true), FrameNote(data)));
      if cfg.h264 then framed else Publish(cfg, framed)
  }

  // ----- recovery timers -----

  function ForgetSearch(s: Service): Service {
    s.(search := s.search.(hubStarted := false), ver := ResetRequests(s.ver))
  }

  function OnIdleDisconnect(cfg: Config, s: Service): Service {
    if s.conn == Connected then Disconnect(cfg, s.(deviceGone := true)) else s
  }

  function OnRecoveryRestart(cfg: Config, s: Service, controlTimeout: bool, full: bool, start: WirelessStart): Service {
    var fired := s.(deviceGone := false);
    if s.conn == Searching then fired
    else if controlTimeout then
      if full then CleanupAasdk(cfg, ForgetSearch(fired)) else CleanupChannels(cfg, ForgetSearch(fired))
    else
      StartSearching(cfg, Disconnect(cfg, fired), start)
  }

  function OnRecoveryReinit(cfg: Config, s: Service, full: bool, ok: bool, start: WirelessStart): Service {
    if s.conn == Searching then s
    else if full && !ok then TransitionTo(cfg, SetupAasdk(s, false), Failed)
    else StartSearching(cfg, if full then SetupAasdk(s, true) else s, start)
  }

  function OnIdleTeardown(cfg: Config, s: Service): Service {
    if s.conn != Disconnected then s.(deviceGone := false)
    else CleanupAasdk(cfg, ForgetSearch(s))
  }

  function OnIdleReinit(cfg: Config, s: Service, ok: bool, start: WirelessStart): Service {
    if s.conn == Searching then s.(deviceGone := false)
    else if !ok then TransitionTo(cfg, SetupAasdk(s, false), Failed).(deviceGone := false)
    else StartSearching(cfg, SetupAasdk(s, true), start).(deviceGone := false)
  }

  // ----- API -----

  function Initialise(cfg: Config, s: Service, ok: bool): Service {
    if s.initialised then s
    else if !ok then SetupAasdk(s, false)
    else TransitionTo(cfg, SetupAasdk(s, true).(initialised := true), Disconnected)
  }

  function Deinitialise(cfg: Config, s: Service): Service {
    if !s.initialised then s
    else
      var idle := DisconnectIfConnected(cfg, StopSearching(cfg, s));
      TransitionTo(cfg, CleanupAasdk(cfg, idle).(initialised := false), Disconnected)
  }

  function OnHeartbeat(s: Service): Service {
    if s.sess.heartbeat then s.(sess := Heartbeat(s.sess)) else s
  }

  /** The accept handler does not look at the connection state. */
  function OnTcpAccepted(cfg: Config, s: Service, accepted: bool, setup: Setup, delay: nat): Service
    requires s.search.accepts > 0
  {
    var taken := s.(search := s.search.(accepts := s.search.accepts - 1));
    if accepted then Established(cfg, SetupChannels(taken, setup), delay) else TransitionTo(cfg, taken, Disconnected)
  }

  // ----- the step -----

  function OnCall(cfg: Config, s: Service, call: Call): Service {
    match call
    case InitialiseCall(ok) => Initialise(cfg, s, ok)
    case DeinitialiseCall => Deinitialise(cfg, s)
    case StartSearchingCall(start) => StartSearching(cfg, s, start)
    case StopSearchingCall => StopSearching(cfg, s)
    case ConnectToDeviceCall(known) => if s.initialised && known then TransitionTo(cfg, s, Connecting) else s
    case DisconnectCall => Disconnect(cfg, s)
    case DeviceRemoved => DisconnectIfConnected(cfg, s)
  }

  function OnCallback(cfg: Config, s: Service, callback: Callback): Service {
    match callback
    case VersionResponse(compatible, sent) => OnVersionResponse(cfg, s, compatible, sent)
    case HandshakeMessage(sent) => OnHandshake(cfg, s, sent)
    case DiscoveryRequest => OnDiscoveryRequest(cfg, s)
    case ByeBye => ConnectionLost(cfg, s)
    case VideoOpened => OnVideoOpened(cfg, s)
    case VideoSetup => OnVideoSetup(cfg, s)
    case VideoStarted => OnVideoStarted(cfg, s)
    case VideoStopped => OnVideoStopped(cfg, s)
    case VideoFrame(data) => OnVideoFrame(cfg, s, data)
    case MediaStarted => OnMediaAudio(cfg, s, true)
    case MediaStopped => OnMediaAudio(cfg, s, false)
    case ErrorReported(source, text) => ChannelError(cfg, s, source, Classify(source == Control, text))
  }

  function OnTimer(cfg: Config, s: Service, timer: Timer): Service
    requires TimerPending(s, timer)
  {
    match timer
    case HeartbeatTimer => OnHeartbeat(s)
    case WatchdogTimer(w, elapsed, retry) => OnWatchdog(cfg, s, w, elapsed, retry)
    case RequestTimer(token) => VersionTimer(cfg, s, token)
    case HubStartTimer => StartupTimer(cfg, s)
    case RecoveryRestart(controlTimeout, full, start) => OnRecoveryRestart(cfg, s, controlTimeout, full, start)
    case RecoveryReinit(full, ok, start) => OnRecoveryReinit(cfg, s, full, ok, start)
    case ImmediateRestart(start) => StartSearching(cfg, s.(deviceGone := false), start)
    case IdleRecoveryDisconnect => OnIdleDisconnect(cfg, s)
    case IdleRecoveryTeardown => OnIdleTeardown(cfg, s)
    case IdleRecoveryReinit(ok, start) => OnIdleReinit(cfg, s, ok, start)
  }

  function OnArrival(cfg: Config, s: Service, arrival: Arrival): Service
    requires ArrivalPending(s, arrival)
  {
    match arrival
    case RequestSettled(token, settlement) => SettleVersionRequest(cfg, s, token.chain, settlement)
    case HubSettled(promise, outcome) => SettleHub(cfg, s, promise, outcome)
    case ScanAttached(setup, delay) => if s.conn == Searching then Attach(cfg, s, setup, delay) else s
    case TcpAccepted(accepted, setup, delay) => OnTcpAccepted(cfg, s, accepted, setup, delay)
  }

  function Step(cfg: Config, s: Service, e: Event): Service
    requires Enabled(cfg, s, e)
  {
    match e
    case Tick(ms) => s.(now := s.now + ms)
    case Called(call) => OnCall(cfg, s, call)
    case CalledBack(callback) => OnCallback(cfg, s, callback)
    case Fired(timer) => OnTimer(cfg, s, timer)
    case Arrived(arrival) => OnArrival(cfg, s, arrival)
  }

  /** The members as declared, before the constructor's projection reset. */
  function Blank(now: nat): Service {
    Service(
      now, false, false, Disconnected, false, false, false, false, false,
      Sessions(Ended, None, false, 0, NoWrites),
      Projection(false, false, false, false, false, false, false, NoNotes),
      Handshake(false, 0, 0, {}, 0, NoHandshake),
      Requests(0, 0, 0, 0, 0, {}, NoSends),
      Search(0, false, 0, {}, 0, NoAttachments, 0),
      Grace(0, 0, 0, NoGrace))
  }

  /** The state the constructor leaves. */
  function Initial(cfg: Config, now: nat): Service {
    ResetProjection(cfg, Blank(now), false)
  }

  /** The state after a run; None when some event was not enabled where it stands. */
  function Replay(cfg: Config, now: nat, events: seq<Event>): Option<Service> {
    if |events| == 0 then Some(Initial(cfg, now))
    else
      match Replay(cfg, now, events[..|events| - 1])
      case None => None
      case Some(s) => if Enabled(cfg, s, events[|events| - 1]) then Some(Step(cfg, s, events[|events| - 1])) else None
  }
}
