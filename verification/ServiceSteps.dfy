/** The operations of RealAndroidAutoService as functions on its state. */
module ServiceSteps {
  import opened ErrorText
  import opened ServiceState
  import opened Wrappers

  // ----- sessions -----

  function Log(sess: Sessions, op: StoreOp): Sessions {
    sess.(log := Write(sess.log, op))
  }

  /** endCurrentSession. */
  function EndCurrent(sess: Sessions): Sessions {
    if sess.current.None? then sess
    else Log(sess.(heartbeat := false, current := None), EndRow(sess.current.value))
  }

  /** updateSessionHeartbeat. */
  function Heartbeat(sess: Sessions): Sessions {
    if sess.current.Some? && sess.state == Active then Log(sess, Beat(sess.current.value)) else sess
  }

  /** createSessionForDevice. */
  function CreateSession(sess: Sessions): Sessions {
    var ended := EndCurrent(sess);
    Log(ended.(current := Some(ended.nextId), nextId := ended.nextId + 1), CreateRow(ended.nextId))
  }

  /** transitionToSessionState. */
  function EnterSession(sess: Sessions, state: SessionState): Sessions {
    if sess.state == state then sess else
      var entered := sess.(state := state);
      var stored := if sess.current.Some? then Log(entered, UpdateRow(sess.current.value, state)) else entered;
      var beating :=
        if state == Active && !stored.heartbeat then Heartbeat(stored.(heartbeat := true))
        else if state != Active && stored.heartbeat then stored.(heartbeat := false)
        else stored;
      if state == Ended || state == Errored then EndCurrent(beating) else beating
  }

  /** The session side of transitionToState, once the connection state has changed. */
  function FollowConnection(sess: Sessions, conn: ConnectionState): Sessions {
    match conn
    case Connecting => EnterSession(sess, Negotiating)
    case Authenticating => EnterSession(sess, Negotiating)
    case Securing => EnterSession(sess, Negotiating)
    case Connected => EnterSession(sess, Active)
    case Disconnected => if sess.state == Active || sess.state == Negotiating then EnterSession(sess, Ended) else sess
    case Failed => EnterSession(sess, Errored)
    case Searching => sess
    case Disconnecting => sess
  }

  // ----- projection status -----

  function AddNote(proj: Projection, note: Note): Projection {
    proj.(notes := Noted(proj.notes, note))
  }

  /** isProjectionReady. */
  predicate Ready(cfg: Config, conn: ConnectionState, proj: Projection) {
    && conn == Connected && proj.version && proj.discovery
    && (!cfg.videoEnabled || (proj.channelOpen && proj.configured && proj.started && proj.frame))
  }

  /** publishProjectionStatus. */
  function Publish(cfg: Config, s: Service): Service {
    s.(proj := AddNote(s.proj, PublishedNote(Ready(cfg, s.conn, s.proj))))
  }

  function ClearFlags(proj: Projection, established: bool): Projection {
    Projection(false, false, false, false, false, false, false, Noted(proj.notes, ResetNote(established)))
  }

  function LogHandshake(hs: Handshake, note: HandshakeNote): Handshake {
    hs.(log := Happened(hs.log, note))
  }

  /** Stop awaiting and outdate every pending watchdog. */
  function Outdate(hs: Handshake): Handshake {
    LogHandshake(hs.(awaiting := false, epoch := hs.epoch + 1, retries := 0), Cleared)
  }

  /** resetProjectionStatus. */
  function ResetProjection(cfg: Config, s: Service, established: bool): Service {
    Publish(cfg, s.(proj := ClearFlags(s.proj, established), hs := Outdate(s.hs), grace := s.grace.(noDevice := 0)))
  }

  /** transitionToState. */
  function TransitionTo(cfg: Config, s: Service, conn: ConnectionState): Service {
    if s.conn == conn then s else
      var published := Publish(cfg, s.(conn := conn));
      published.(sess := FollowConnection(published.sess, conn))
  }

  // ----- connecting and disconnecting -----

  /** How far setupChannels gets before an exception, if any. */
  datatype Setup = NotBuilt | ControlOnly | Built

  function SetupChannels(s: Service, setup: Setup): Service {
    match setup
    case NotBuilt => s
    case ControlOnly => s.(control := true)
    case Built => s.(control := true, pipeline := true, teardown := false)
  }

  function ResetRequests(ver: Requests): Requests {
    ver.(attempts := 0, first := 0, window := ver.window + 1)
  }

  function CleanupChannels(cfg: Config, s: Service): Service {
    ResetProjection(cfg, s.(teardown := true, pipeline := false, control := false, handler := false), false)
  }

  function CleanupAasdk(cfg: Config, s: Service): Service {
    CleanupChannels(cfg, s).(stack := false)
  }

  /** setupAASDK; it can fail after teardown has been reset. */
  function SetupAasdk(s: Service, ok: bool): Service {
    s.(teardown := false, stack := s.stack || ok)
  }

  function Disconnect(cfg: Config, s: Service): Service {
    if s.conn != Connected && s.conn != Connecting then s
    else
      var leaving := TransitionTo(cfg, s, Disconnecting);
      TransitionTo(cfg, ResetProjection(cfg, leaving, false), Disconnected)
  }

  function DisconnectIfConnected(cfg: Config, s: Service): Service {
    if s.conn == Connected then Disconnect(cfg, s) else s
  }

  /** handleConnectionLost. */
  function ConnectionLost(cfg: Config, s: Service): Service {
    DisconnectIfConnected(cfg, ResetProjection(cfg, s, false))
  }

  // ----- error handling -----

  datatype Source = Control | Video | MediaAudio | Other

  function ScheduleRecovery(s: Service): Service {
    s.(deviceGone := true, search := s.search.(hubStarted := false), ver := ResetRequests(s.ver))
  }

  /** performImmediateTransportRecovery, up to the restart it schedules. */
  function ImmediateRecovery(cfg: Config, s: Service): Service {
    if s.deviceGone then s
    else
      TransitionTo(cfg, CleanupChannels(cfg, Disconnect(cfg, ScheduleRecovery(s))), Disconnected)
  }

  function RecordGrace(grace: Grace, note: GraceNote): Grace {
    grace.(log := Recorded(grace.log, note))
  }

  predicate PreHandshake(s: Service) {
    s.conn == Connected && !s.proj.version && !s.proj.discovery
  }

  /** Count one non-control error, in a new window when none is open or the last one has passed. */
  function CountError(cfg: Config, grace: Grace, now: nat): Grace {
    var open :=
      if grace.start == 0 || now > grace.start + cfg.graceWindowMs
      then RecordGrace(grace.(start := now, errors := 0), WindowOpened(now))
      else grace;
    RecordGrace(open.(errors := open.errors + 1), CountedError(now))
  }

  function ForgetErrors(grace: Grace): Grace {
    RecordGrace(grace.(errors := 0, start := 0), Forgotten)
  }

  function StopStream(proj: Projection, source: Source): Projection {
    match source
    case Video => AddNote(proj.(started := false), VideoErrorNote)
    case MediaAudio => proj.(audioStarted := false)
    case Control => proj
    case Other => proj
  }

  /** A control error, or any error once the handshake is under way, closes the grace window. */
  function Forgive(s: Service, source: Source): Service {
    if source == Control || s.proj.version || s.proj.discovery then s.(grace := ForgetErrors(s.grace)) else s
  }

  /** Everything onChannelError does before it looks at the error class. */
  function NoteError(cfg: Config, s: Service, source: Source): Service {
    var forgiven := Forgive(s, source);
    Publish(cfg, forgiven.(proj := StopStream(forgiven.proj, source)))
  }

  /** The recovery dispatch at the end of onChannelError. */
  function Recover(cfg: Config, s: Service, cls: ErrorClass): Service {
    if cls.noDevice && s.proj.discovery && !s.proj.started && !s.proj.audioStarted
       && s.grace.noDevice < cfg.noDeviceGraceMax && !s.deviceGone
    then s.(grace := s.grace.(noDevice := s.grace.noDevice + 1))
    else if cls.timeout || cls.noDevice || cls.versionTimeout || cls.handshakeTimeout || cls.aborted then
      if cls.sslNoDevice then ImmediateRecovery(cfg, s)
      else if s.deviceGone then s
      else Disconnect(cfg, s.(deviceGone := true))
    else s
  }

  /** Re-arm in place of recovery, or dispatch. */
  function HandleError(cfg: Config, s: Service, source: Source, cls: ErrorClass): Service {
    if cls.recoverable && s.conn == Connected then s
    else Recover(cfg, NoteError(cfg, s, source), cls)
  }

  function OutdateWait(s: Service): Service {
    s.(hs := Outdate(s.hs))
  }

  function CountPreHandshake(cfg: Config, s: Service): Service {
    s.(grace := CountError(cfg, s.grace, s.now))
  }

  function Escalate(s: Service): Service {
    s.(grace := RecordGrace(s.grace, Escalated(s.now)))
  }

  /** onChannelError. */
  function ChannelError(cfg: Config, s: Service, source: Source, cls: ErrorClass): Service {
    if s.teardown then s
    else if source == Control then HandleError(cfg, OutdateWait(s), source, cls)
    else if PreHandshake(s) then
      var counted := CountPreHandshake(cfg, s);
      if counted.grace.errors <= cfg.graceMaxErrors then counted
      else HandleError(cfg, Escalate(counted), source, cls)
    else HandleError(cfg, s, source, cls)
  }

  function ControlError(cfg: Config, s: Service, text: string): Service {
    ChannelError(cfg, s, Control, Classify(true, text))
  }

  /** What a handler's own onChannelError passes on; None is a recoverable or in-progress error. */
  function HandlerError(cfg: Config, s: Service, fault: Option<string>): Service {
    match fault
    case None => s
    case Some(text) => ControlError(cfg, s, text)
  }

  // ----- version requests -----

  /** sendControlVersionRequest on behalf of a chain. */
  function SendVersionRequest(cfg: Config, s: Service, chain: nat): Service {
    if !s.control then s
    else
      var first := if s.ver.first == 0 then s.now else s.ver.first;
      var ver := s.ver.(first := first);
      if s.now > first + cfg.recoveryWindowMs then
        ControlError(cfg, s.(ver := ver), VersionTimeoutText(s.now - first, ver.attempts))
      else
        s.(ver := ver.(attempts := ver.attempts + 1, tokens := ver.tokens + {InFlight(chain)},
                       sends := Sent(ver.sends, chain, s.now, ver.window)))
  }

  /** The delayed retry of a rejected send. */
  function Retry(s: Service, chain: nat, delay: nat): Service {
    s.(ver := s.ver.(tokens := s.ver.tokens + {Waiting(chain, s.now + delay, false)}))
  }

  function RetryDelay(cfg: Config, attempts: nat): nat {
    var multiplier := if attempts <= 1 then 1 else if attempts >= 4 then 4 else attempts;
    var delay := cfg.versionRetryBaseMs * multiplier;
    if delay <= 5000 then delay else 5000
  }

  /** How the promise of a version request settles. UsbTimeout covers native codes 2 and -4. */
  datatype Settlement = Delivered | InProgress | UsbTimeout(native2: bool, text: string) | Rejected(text: string)

  function SettleVersionRequest(cfg: Config, s: Service, chain: nat, settlement: Settlement): Service {
    var taken := s.(ver := s.ver.(tokens := s.ver.tokens - {InFlight(chain)}));
    match settlement
    case Delivered => taken
    case InProgress => Retry(taken, chain, 300)
    case Rejected(text) => ControlError(cfg, taken, text)
    case UsbTimeout(native2, text) => RequestTimeout(cfg, taken, chain, native2, text)
  }

  function RequestTimeout(cfg: Config, s: Service, chain: nat, native2: bool, text: string): Service {
    var counted := s.(ver := s.ver.(native2 := if native2 then s.ver.native2 + 1 else 0));
    if cfg.fastReconnect && native2 && counted.ver.native2 < cfg.native2Threshold then
      if counted.conn == Connected && counted.ver.attempts < cfg.versionMaxAttempts then
        Retry(counted, chain, RetryDelay(cfg, counted.ver.attempts))
      else if counted.ver.native2 >= cfg.native2Threshold && cfg.immediateReset then
        ImmediateRecovery(cfg, counted)
      else
        ControlError(cfg, counted, VersionAttemptsText(counted.ver.attempts))
    else
      ControlError(cfg, counted, text)
  }

  /** The timer of a chain. The first request is sent whether or not a version is already known. */
  function VersionTimer(cfg: Config, s: Service, token: Token): Service
    requires token.Waiting?
  {
    var taken := s.(ver := s.ver.(tokens := s.ver.tokens - {token}));
    if s.conn == Connected && s.control && s.handler && (token.initial || !s.proj.version)
    then SendVersionRequest(cfg, taken, token.chain)
    else taken
  }

  /** A new control handler, and the chain of version requests it starts. */
  function NewHandler(s: Service): Service {
    s.(handler := true, hs := s.hs.(retries := 0),
       ver := ResetRequests(s.ver).(native2 := 0, chains := s.ver.chains + 1))
  }

  function StartRequests(cfg: Config, s: Service, delay: nat): Service {
    if !s.control || s.handler then s
    else
      var chain, prepared := s.ver.chains, NewHandler(s);
      if delay > 0
      then prepared.(ver := prepared.ver.(tokens := prepared.ver.tokens + {Waiting(chain, s.now + delay, true)}))
      else SendVersionRequest(cfg, prepared, chain)
  }

  function BeginSession(s: Service): Service {
    s.(deviceGone := false, sess := CreateSession(s.sess))
  }

  /** handleConnectionEstablished. */
  function Established(cfg: Config, s: Service, delay: nat): Service {
    var requested := StartRequests(cfg, ResetProjection(cfg, s, true), delay);
    Publish(cfg, TransitionTo(cfg, BeginSession(requested), Connected))
  }

  // ----- searching -----

  /** What a wireless start finds: a listening socket, or a host it connects to itself. */
  datatype WirelessStart = Listen(ok: bool) | Outbound(ok: bool, setup: Setup, delay: nat)

  /** A listening socket whose accept is pending. */
  function Listening(s: Service): Service {
    s.(search := s.search.(accepts := s.search.accepts + 1))
  }

  function StartWireless(cfg: Config, s: Service, start: WirelessStart): Service {
    var connecting := TransitionTo(cfg, s, Connecting);
    match start
    case Listen(ok) =>
      if ok then TransitionTo(cfg, Listening(connecting), Searching) else TransitionTo(cfg, connecting, Disconnected)
    case Outbound(ok, setup, delay) =>
      if ok then Established(cfg, SetupChannels(connecting, setup), delay)
      else TransitionTo(cfg, connecting, Disconnected)
  }

  /** Promises of earlier searches are stale from here on. */
  function NextSearch(s: Service): Service {
    s.(search := s.search.(hubStarted := false, generation := s.search.generation + 1))
  }

  function StartUsb(cfg: Config, s: Service): Service {
    var searching := TransitionTo(cfg, NextSearch(s), Searching);
    searching.(search := searching.search.(startupTimers := searching.search.startupTimers + 1))
  }

  function StartSearching(cfg: Config, s: Service, start: WirelessStart): Service {
    var reset := ResetProjection(cfg, s.(deviceGone := false), false);
    if !reset.initialised || reset.conn != Disconnected then reset
    else if cfg.wireless then StartWireless(cfg, reset, start)
    else StartUsb(cfg, reset)
  }

  function StopSearching(cfg: Config, s: Service): Service {
    if s.conn != Searching then s
    else
      TransitionTo(cfg, ResetProjection(cfg, s.(search := s.search.(hubStarted := false)), false), Disconnected)
  }

  /** startUSBHubDetection. */
  function StartHub(cfg: Config, s: Service): Service {
    if !s.stack then TransitionTo(cfg, s, Disconnected)
    else if s.search.hubStarted then s
    else
      s.(search := s.search.(hubStarted := true, issued := s.search.issued + 1,
                             promises := s.search.promises + {HubPromise(s.search.generation, s.search.issued)}))
  }

  /** The delayed start of hub detection. */
  function StartupTimer(cfg: Config, s: Service): Service
    requires s.search.startupTimers > 0
  {
    var fired := s.(search := s.search.(startupTimers := s.search.startupTimers - 1));
    if s.conn == Searching then StartHub(cfg, fired) else fired
  }

  /** An accessory-mode device has been opened. */
  function Attach(cfg: Config, s: Service, setup: Setup, delay: nat): Service {
    Established(cfg, SetupChannels(TransitionTo(cfg, s, Connecting), setup), delay)
  }

  /** How a hub promise settles; Deferred leaves the device to the periodic scan. */
  datatype HubResult = HubRejected | Deferred | Direct(setup: Setup, delay: nat)

  function SettleHub(cfg: Config, s: Service, promise: HubPromise, result: HubResult): Service {
    var taken := s.(search := s.search.(promises := s.search.promises - {promise}));
    if promise.generation != s.search.generation || s.conn != Searching || !result.Direct? then taken
    else
      var attachments := Attached(taken.search.attachments, promise.generation);
      Attach(cfg, taken.(search := taken.search.(attachments := attachments)), result.setup, result.delay)
  }
}
