/** The remaining operations, the step, and the invariant of every run. */
module StepProofs {
  import opened ErrorText
  import opened ServiceState
  import opened ServiceSteps
  import opened ServiceEvents
  import opened ServiceInvariants
  import opened SessionLifecycle
  import opened ComponentSteps
  import opened ServiceProofs

  // ----- version requests -----

  lemma SendVersionRequestOk(cfg: Config, s: Service, chain: nat)
    requires ValidConfig(cfg) && Inv(cfg, s) && Idle(s.ver, chain) && chain < s.ver.chains
    requires EverSent(s.ver.sends, chain) ==> s.now >= LastSend(s.ver.sends, chain) + 250
    ensures Inv(cfg, SendVersionRequest(cfg, s, chain))
  {
    hide Inv, ControlError, VersionTimeoutText, RequestsOk;
    Parts(cfg, s);
    var ver := s.ver.(first := if s.ver.first == 0 then s.now else s.ver.first);
    OpenWindowOk(cfg, s.now, s.ver);
    RequestsChangeOk(cfg, s, ver);
    if s.control {
      if s.now > ver.first + cfg.recoveryWindowMs {
        ControlErrorOk(cfg, s.(ver := ver), VersionTimeoutText(s.now - ver.first, ver.attempts));
      } else {
        SendOk(cfg, s.now, ver, chain);
        var sent := ver.(tokens := ver.tokens + {InFlight(chain)}, sends := Sent(ver.sends, chain, s.now, ver.window));
        CountersOk(cfg, s.now, sent, ver.attempts + 1, ver.native2);
        RequestsChangeOk(cfg, s, sent.(attempts := ver.attempts + 1, native2 := ver.native2));
      }
    }
  }

  /** Taking the token of a chain leaves the chain idle. */
  lemma TakeTokenOk(cfg: Config, s: Service, t: Token)
    requires Inv(cfg, s) && t in s.ver.tokens
    ensures var taken := s.(ver := s.ver.(tokens := s.ver.tokens - {t}));
            Inv(cfg, taken) && Idle(taken.ver, t.chain) && TokenOk(s.ver, t)
    ensures LastSend(s.ver.sends, t.chain) <= s.now
  {
    Parts(cfg, s);
    DropTokenOk(cfg, s.now, s.ver, t);
    RequestsChangeOk(cfg, s, s.ver.(tokens := s.ver.tokens - {t}));
    hide Inv;
    assert ChainOk(cfg, s.now, s.ver, t.chain);
  }

  lemma RetryOk(cfg: Config, s: Service, chain: nat, delay: nat)
    requires Inv(cfg, s) && Idle(s.ver, chain) && chain < s.ver.chains && delay >= 250
    requires EverSent(s.ver.sends, chain) && LastSend(s.ver.sends, chain) <= s.now
    ensures Inv(cfg, Retry(s, chain, delay))
  {
    hide Inv;
    Parts(cfg, s);
    AddTokenOk(cfg, s.now, s.ver, Waiting(chain, s.now + delay, false));
    RequestsChangeOk(cfg, s, s.ver.(tokens := s.ver.tokens + {Waiting(chain, s.now + delay, false)}));
  }

  lemma RetryDelayBounds(cfg: Config, attempts: nat)
    requires ValidConfig(cfg)
    ensures 250 <= RetryDelay(cfg, attempts) <= 5000
  {
    var multiplier := if attempts <= 1 then 1 else if attempts >= 4 then 4 else attempts;
    assert cfg.versionRetryBaseMs <= cfg.versionRetryBaseMs * multiplier;
  }

  lemma SettleVersionRequestOk(cfg: Config, s: Service, chain: nat, settlement: Settlement)
    requires ValidConfig(cfg) && Inv(cfg, s) && InFlight(chain) in s.ver.tokens
    ensures Inv(cfg, SettleVersionRequest(cfg, s, chain, settlement))
  {
    hide Inv, ControlError, ImmediateRecovery, Retry, RetryDelay, VersionAttemptsText, Idle;
    TakeTokenOk(cfg, s, InFlight(chain));
    var taken := s.(ver := s.ver.(tokens := s.ver.tokens - {InFlight(chain)}));
    match settlement {
      case Delivered =>
      case InProgress => RetryOk(cfg, taken, chain, 300);
      case Rejected(text) => ControlErrorOk(cfg, taken, text);
      case UsbTimeout(native2, text) =>
        var n := if native2 then taken.ver.native2 + 1 else 0;
        CountTimeoutOk(cfg, taken, chain, n);
        var counted := taken.(ver := taken.ver.(native2 := n));
        RetryDelayBounds(cfg, counted.ver.attempts);
        RetryOk(cfg, counted, chain, RetryDelay(cfg, counted.ver.attempts));
        ImmediateRecoveryOk(cfg, counted);
        ControlErrorOk(cfg, counted, VersionAttemptsText(counted.ver.attempts));
        ControlErrorOk(cfg, counted, text);
    }
  }

  lemma CountTimeoutOk(cfg: Config, s: Service, chain: nat, n: nat)
    requires Inv(cfg, s) && Idle(s.ver, chain)
    ensures var counted := s.(ver := s.ver.(native2 := n));
            Inv(cfg, counted) && Idle(counted.ver, chain)
  {
    hide Inv, RequestsOk;
    Parts(cfg, s);
    CountersOk(cfg, s.now, s.ver, s.ver.attempts, n);
    assert s.ver.(native2 := n) == s.ver.(attempts := s.ver.attempts, native2 := n);
    RequestsChangeOk(cfg, s, s.ver.(native2 := n));
  }

  lemma VersionTimerOk(cfg: Config, s: Service, token: Token)
    requires ValidConfig(cfg) && Inv(cfg, s) && token in s.ver.tokens && token.Waiting? && token.due <= s.now
    ensures Inv(cfg, VersionTimer(cfg, s, token))
  {
    hide Inv, SendVersionRequest;
    TakeTokenOk(cfg, s, token);
    var taken := s.(ver := s.ver.(tokens := s.ver.tokens - {token}));
    SendVersionRequestOk(cfg, taken, token.chain);
  }

  /** A new chain starts in an empty window, so its first request cannot run into the window's end. */
  lemma NewHandlerOk(cfg: Config, s: Service)
    requires Inv(cfg, s)
    ensures Inv(cfg, NewHandler(s)) && Idle(NewHandler(s).ver, s.ver.chains)
    ensures !EverSent(NewHandler(s).ver.sends, s.ver.chains)
    ensures NewHandler(s).ver.chains == s.ver.chains + 1
  {
    Parts(cfg, s);
    hide Inv, RequestsOk;
    ResetRequestsOk(cfg, s.now, s.ver);
    CountersOk(cfg, s.now, ResetRequests(s.ver), 0, 0);
    var reset := ResetRequests(s.ver).(attempts := 0, native2 := 0);
    NewChainOk(cfg, s.now, reset);
    var ver := NewHandler(s).ver;
    assert ver == reset.(chains := reset.chains + 1);
    RequestsChangeOk(cfg, s, ver);
    RetriesOk(s.hs, 0);
    HandshakeChangeOk(cfg, s.(ver := ver), s.hs.(retries := 0));
    SideFlagsOk(cfg, s.(ver := ver).(hs := s.hs.(retries := 0)), NewHandler(s));
  }

  lemma FirstTimerOk(cfg: Config, s: Service, delay: nat)
    requires Inv(cfg, s)
    ensures var prepared := NewHandler(s);
            var token := Waiting(s.ver.chains, s.now + delay, true);
            Inv(cfg, prepared.(ver := prepared.ver.(tokens := prepared.ver.tokens + {token})))
  {
    hide Inv, NewHandler, RequestsOk;
    NewHandlerOk(cfg, s);
    NewHandlerKeepsTime(s);
    var prepared := NewHandler(s);
    Parts(cfg, prepared);
    var token := Waiting(s.ver.chains, s.now + delay, true);
    AddTokenOk(cfg, s.now, prepared.ver, token);
    RequestsChangeOk(cfg, prepared, prepared.ver.(tokens := prepared.ver.tokens + {token}));
  }

  lemma NewHandlerKeepsTime(s: Service)
    ensures NewHandler(s).now == s.now
  {
  }

  lemma StartRequestsOk(cfg: Config, s: Service, delay: nat)
    requires ValidConfig(cfg) && Inv(cfg, s)
    ensures var t := StartRequests(cfg, s, delay);
            Inv(cfg, t) && t == s.(handler := t.handler, hs := t.hs, ver := t.ver)
  {
    StartRequestsFrame(cfg, s, delay);
    hide Inv, SendVersionRequest, NewHandler;
    if s.control && !s.handler {
      if delay > 0 {
        FirstTimerOk(cfg, s, delay);
        NewHandlerKeepsTime(s);
      } else {
        NewHandlerOk(cfg, s);
        SendVersionRequestOk(cfg, NewHandler(s), s.ver.chains);
      }
    }
  }

  // ----- connecting -----

  lemma EstablishedOk(cfg: Config, s: Service, delay: nat)
    requires ValidConfig(cfg) && Inv(cfg, s)
    ensures Inv(cfg, Established(cfg, s, delay)) && Established(cfg, s, delay).conn == Connected
    ensures Established(cfg, s, delay).search == s.search
  {
    hide Inv, StartRequests, ResetProjection, CreateSession, FollowConnection;
    var reset := ResetProjection(cfg, s, true);
    ResetOk(cfg, s, true);
    ResetFrame(cfg, s, true);
    StartRequestsOk(cfg, reset, delay);
    var requested := StartRequests(cfg, reset, delay);
    ConnectOk(cfg, requested);
  }

  /** The session is created and the connection enters CONNECTED. */
  lemma ConnectOk(cfg: Config, s: Service)
    requires Inv(cfg, s) && EverEstablished(s.proj.notes)
    ensures var created := s.(deviceGone := false, sess := CreateSession(s.sess));
            var t := Publish(cfg, TransitionTo(cfg, created, Connected));
            Inv(cfg, t) && t.conn == Connected && t.search == s.search
  {
    hide SessionOk, HandshakeOk, RequestsOk, SearchOk, GraceOk, ProjectionOk, FollowConnection, CreateSession;
    EstablishOk(s.conn, s.sess);
    SearchConnOk(cfg, s.conn, s.search, Connected);
    ProjectionConnOk(cfg, s.conn, s.proj, Connected);
    PublishNoteOk(cfg, Connected, s.proj);
    PublishNoteOk(cfg, Connected, AddNote(s.proj, PublishedNote(Ready(cfg, Connected, s.proj))));
  }

  lemma SetupChannelsOk(cfg: Config, s: Service, setup: Setup)
    requires Inv(cfg, s)
    ensures Inv(cfg, SetupChannels(s, setup)) && SetupChannels(s, setup).search == s.search
    ensures forall ok :: Inv(cfg, SetupAasdk(s, ok))
  {
    hide Inv;
    SideFlagsOk(cfg, s, SetupChannels(s, setup));
    SideFlagsOk(cfg, s, SetupAasdk(s, true));
    SideFlagsOk(cfg, s, SetupAasdk(s, false));
  }

  lemma AttachOk(cfg: Config, s: Service, setup: Setup, delay: nat)
    requires ValidConfig(cfg) && Inv(cfg, s)
    ensures Inv(cfg, Attach(cfg, s, setup, delay)) && Attach(cfg, s, setup, delay).conn == Connected
  {
    hide Inv, TransitionTo, SetupChannels, Established;
    TransitionOk(cfg, s, Connecting);
    SetupChannelsOk(cfg, TransitionTo(cfg, s, Connecting), setup);
    EstablishedOk(cfg, SetupChannels(TransitionTo(cfg, s, Connecting), setup), delay);
  }

  // ----- searching -----

  /** SEARCHING is entered with no session and no hub promise of the current generation. */
  lemma EnterSearchingOk(cfg: Config, s: Service)
    requires Inv(cfg, s) && SearchOk(cfg, Searching, s.search)
    requires s.sess.current.None? && s.sess.state != Active
    ensures Inv(cfg, TransitionTo(cfg, s, Searching))
  {
    hide HandshakeOk, RequestsOk, SearchOk, GraceOk, ProjectionOk, StoreOk;
    ProjectionConnOk(cfg, s.conn, s.proj, Searching);
    PublishNoteOk(cfg, Searching, s.proj);
  }

  lemma AcceptsOk(cfg: Config, conn: ConnectionState, search: Search, accepts: nat)
    requires SearchOk(cfg, conn, search) && (cfg.wireless || accepts <= search.accepts)
    ensures SearchOk(cfg, conn, search.(accepts := accepts))
  {
  }

  lemma ListeningOk(cfg: Config, s: Service)
    requires Inv(cfg, s) && s.conn == Connecting && cfg.wireless && s.sess.current.None?
    ensures Inv(cfg, TransitionTo(cfg, Listening(s), Searching))
  {
    hide TransitionTo, StoreOk, ProjectionOk, HandshakeOk, RequestsOk, GraceOk, RowStateOk;
    SearchChangeOk(cfg, s, Listening(s).search);
    EnterSearchingOk(cfg, Listening(s));
  }

  lemma StartWirelessOk(cfg: Config, s: Service, start: WirelessStart)
    requires ValidConfig(cfg) && Inv(cfg, s) && s.conn == Disconnected && cfg.wireless
    ensures Inv(cfg, StartWireless(cfg, s, start))
  {
    TransitionOk(cfg, s, Connecting);
    TransitionFrame(cfg, s, Connecting);
    var connecting := TransitionTo(cfg, s, Connecting);
    hide TransitionTo, SetupChannels, Established, StoreOk, ProjectionOk, HandshakeOk, RequestsOk, GraceOk;
    match start {
      case Listen(ok) =>
        TransitionOk(cfg, connecting, Disconnected);
        ListeningOk(cfg, connecting);
      case Outbound(ok, setup, delay) =>
        TransitionOk(cfg, connecting, Disconnected);
        SetupChannelsOk(cfg, connecting, setup);
        EstablishedOk(cfg, SetupChannels(connecting, setup), delay);
    }
  }

  lemma RenewedSearchOk(cfg: Config, search: Search)
    requires SearchOk(cfg, Disconnected, search) && !cfg.wireless
    ensures var renewed := search.(hubStarted := false, generation := search.generation + 1);
            SearchOk(cfg, Searching, renewed) && SearchOk(cfg, Disconnected, renewed)
  {
  }

  lemma StartupCountOk(cfg: Config, conn: ConnectionState, search: Search, n: nat)
    requires SearchOk(cfg, conn, search) && (cfg.wireless ==> n == 0)
    ensures SearchOk(cfg, conn, search.(startupTimers := n))
  {
  }

  lemma StartUsbOk(cfg: Config, s: Service)
    requires Inv(cfg, s) && s.conn == Disconnected && !cfg.wireless
    ensures Inv(cfg, StartUsb(cfg, s))
  {
    hide Inv, TransitionTo, StoreOk, SearchOk, ProjectionOk, HandshakeOk, RequestsOk, GraceOk;
    Parts(cfg, s);
    RenewedSearchOk(cfg, s.search);
    var renewed := s.(search := s.search.(hubStarted := false, generation := s.search.generation + 1));
    SearchChangeOk(cfg, s, renewed.search);
    EnterSearchingOk(cfg, renewed);
    TransitionFrame(cfg, renewed, Searching);
    var searching := TransitionTo(cfg, renewed, Searching);
    StartupCountOk(cfg, Searching, searching.search, searching.search.startupTimers + 1);
    SearchChangeOk(cfg, searching, searching.search.(startupTimers := searching.search.startupTimers + 1));
  }

  lemma StartSearchingOk(cfg: Config, s: Service, start: WirelessStart)
    requires ValidConfig(cfg) && Inv(cfg, s)
    ensures Inv(cfg, StartSearching(cfg, s, start))
  {
    hide Inv, ResetProjection, StartWireless, StartUsb;
    SideFlagsOk(cfg, s, s.(deviceGone := false));
    ResetOk(cfg, s.(deviceGone := false), false);
    var reset := ResetProjection(cfg, s.(deviceGone := false), false);
    if reset.conn == Disconnected {
      if cfg.wireless {
        StartWirelessOk(cfg, reset, start);
      } else {
        StartUsbOk(cfg, reset);
      }
    }
  }

  lemma NewPromiseOk(cfg: Config, search: Search)
    requires SearchOk(cfg, Searching, search) && !search.hubStarted && !cfg.wireless
    ensures SearchOk(cfg, Searching, search.(hubStarted := true, issued := search.issued + 1,
              promises := search.promises + {HubPromise(search.generation, search.issued)}))
  {
  }

  lemma TimersMeanUsb(cfg: Config, conn: ConnectionState, search: Search)
    requires SearchOk(cfg, conn, search) && search.startupTimers > 0
    ensures !cfg.wireless
  {
  }

  lemma StartupTimerOk(cfg: Config, s: Service)
    requires Inv(cfg, s) && s.search.startupTimers > 0
    ensures Inv(cfg, StartupTimer(cfg, s))
  {
    hide Inv, TransitionTo, SearchOk, ProjectionOk, HandshakeOk, RequestsOk, GraceOk, SessionOk;
    Parts(cfg, s);
    TimersMeanUsb(cfg, s.conn, s.search);
    StartupCountOk(cfg, s.conn, s.search, s.search.startupTimers - 1);
    var fired := s.(search := s.search.(startupTimers := s.search.startupTimers - 1));
    SearchChangeOk(cfg, s, fired.search);
    if s.conn == Searching {
      TransitionOk(cfg, fired, Disconnected);
      if !fired.search.hubStarted {
        NewPromiseOk(cfg, fired.search);
        SearchChangeOk(cfg, fired, fired.search.(hubStarted := true, issued := fired.search.issued + 1,
          promises := fired.search.promises + {HubPromise(fired.search.generation, fired.search.issued)}));
      }
    }
  }

  lemma TakePromiseOk(cfg: Config, conn: ConnectionState, search: Search, p: HubPromise)
    requires SearchOk(cfg, conn, search) && p in search.promises
    ensures var taken := search.(promises := search.promises - {p});
            && SearchOk(cfg, conn, taken)
            && (p.generation == search.generation && search.hubStarted ==>
                  SearchOk(cfg, conn, taken.(attachments := Attached(taken.attachments, p.generation))))
            && (p.generation == search.generation && conn == Searching ==> search.hubStarted)
  {
  }

  lemma SettleHubOk(cfg: Config, s: Service, p: HubPromise, result: HubResult)
    requires ValidConfig(cfg) && Inv(cfg, s) && p in s.search.promises
    ensures Inv(cfg, SettleHub(cfg, s, p, result))
  {
    hide Inv, Attach, SearchOk;
    Parts(cfg, s);
    TakePromiseOk(cfg, s.conn, s.search, p);
    var taken := s.(search := s.search.(promises := s.search.promises - {p}));
    SearchChangeOk(cfg, s, taken.search);
    if p.generation == s.search.generation && s.conn == Searching && result.Direct? {
      var attached := taken.(search := taken.search.(attachments := Attached(taken.search.attachments, p.generation)));
      SearchChangeOk(cfg, taken, attached.search);
      AttachOk(cfg, attached, result.setup, result.delay);
    }
  }

  // ----- control channel -----

  lemma NoteVersionOk(cfg: Config, s: Service)
    requires Inv(cfg, s)
    ensures Inv(cfg, NoteVersion(cfg, s))
  {
    hide Inv, Publish, ResetRequests, RequestsOk;
    Parts(cfg, s);
    ResetRequestsOk(cfg, s.now, s.ver);
    CountersOk(cfg, s.now, ResetRequests(s.ver), ResetRequests(s.ver).attempts, 0);
    var ver := ResetRequests(s.ver).(native2 := 0);
    assert ver == ResetRequests(s.ver).(attempts := ResetRequests(s.ver).attempts, native2 := 0);
    RequestsChangeOk(cfg, s, ver);
    VersionKnownOk(cfg, s.conn, s.proj);
    ProjectionChangeOk(cfg, s.(ver := ver), AddNote(s.proj.(version := true), VersionNote));
    PublishOk(cfg, s.(ver := ver, proj := AddNote(s.proj.(version := true), VersionNote)));
  }

  lemma OnVersionResponseOk(cfg: Config, s: Service, compatible: bool, result: SendResult)
    requires Inv(cfg, s)
    ensures Inv(cfg, OnVersionResponse(cfg, s, compatible, result))
  {
    hide Inv, NoteVersion, ControlError, HandlerError, TransitionTo;
    var known := NoteVersion(cfg, s);
    NoteVersionOk(cfg, s);
    if !compatible {
      ControlErrorOk(cfg, known, "No compatible protocol version");
      TransitionOk(cfg, ControlError(cfg, known, "No compatible protocol version"), Failed);
    } else {
      match result {
        case SentOk =>
          Parts(cfg, known);
          ArmOk(known);
          HandshakeChangeOk(cfg, known, ArmWatchdog(known).hs);
        case Threw(fault) => HandlerErrorOk(cfg, known, fault);
      }
    }
  }

  lemma OnHandshakeOk(cfg: Config, s: Service, result: SendResult)
    requires Inv(cfg, s)
    ensures Inv(cfg, OnHandshake(cfg, s, result))
  {
    hide Inv, HandlerError, StopAwaiting;
    Parts(cfg, s);
    StopAwaitingOk(s.hs);
    HandshakeChangeOk(cfg, s, StopAwaiting(s.hs));
    if result.Threw? {
      HandlerErrorOk(cfg, s.(hs := StopAwaiting(s.hs)), result.fault);
    }
  }

  lemma OnDiscoveryRequestOk(cfg: Config, s: Service)
    requires Inv(cfg, s)
    ensures Inv(cfg, OnDiscoveryRequest(cfg, s))
  {
    hide Inv, Publish, StopAwaiting;
    Parts(cfg, s);
    StopAwaitingOk(s.hs);
    HandshakeChangeOk(cfg, s, StopAwaiting(s.hs));
    DiscoveryKnownOk(cfg, s.conn, s.proj);
    ProjectionChangeOk(cfg, s.(hs := StopAwaiting(s.hs)), AddNote(s.proj.(discovery := true), DiscoveryNote));
    PublishOk(cfg, s.(hs := StopAwaiting(s.hs), proj := AddNote(s.proj.(discovery := true), DiscoveryNote)));
  }

  lemma OnWatchdogOk(cfg: Config, s: Service, w: Watchdog, elapsed: nat, retry: RetryResult)
    requires Inv(cfg, s) && w in s.hs.watchdogs
    ensures Inv(cfg, OnWatchdog(cfg, s, w, elapsed, retry))
  {
    hide Inv, ControlError, HandshakeOk, HandshakeTimeoutText;
    Parts(cfg, s);
    FiredOk(s.hs, w);
    var fired := s.(hs := s.hs.(watchdogs := s.hs.watchdogs - {w}));
    HandshakeChangeOk(cfg, s, fired.hs);
    if Acts(s, w) {
      if !w.second && s.hs.retries < cfg.handshakeRetries {
        RetryHandshakeOk(cfg, s, w, retry);
      } else {
        TimeoutOk(s.hs, w);
        var timedOut := LogHandshake(fired.hs.(awaiting := false), TimedOut(w.response));
        HandshakeChangeOk(cfg, fired, timedOut);
        ControlErrorOk(cfg, fired.(hs := timedOut), HandshakeTimeoutText(elapsed));
      }
    }
  }

  /** The state in which a retry is decided: the timer gone, the retry counted. */
  function Retrying(s: Service, w: Watchdog): Service {
    s.(hs := s.hs.(watchdogs := s.hs.watchdogs - {w}, retries := s.hs.retries + 1))
  }

  lemma SilentRearmOk(cfg: Config, s: Service, w: Watchdog)
    requires Inv(cfg, s) && w in s.hs.watchdogs && Acts(s, w) && !w.second
    ensures Inv(cfg, RearmWatchdog(Retrying(s, w), w.response))
  {
    hide Inv, HandshakeOk;
    Parts(cfg, s);
    RetriedRearmOk(s.hs, w, false);
    var hs := RearmWatchdog(Retrying(s, w), w.response).hs;
    HandshakeChangeOk(cfg, s, hs);
    assert RearmWatchdog(Retrying(s, w), w.response) == s.(hs := hs);
  }

  lemma SentRearmOk(cfg: Config, s: Service, w: Watchdog)
    requires Inv(cfg, s) && w in s.hs.watchdogs && Acts(s, w) && !w.second
    ensures var r := Retrying(s, w);
            Inv(cfg, RearmWatchdog(r.(hs := LogHandshake(r.hs, RetrySent(w.response))), w.response))
  {
    hide Inv, HandshakeOk;
    Parts(cfg, s);
    RetriedRearmOk(s.hs, w, true);
    var r := Retrying(s, w);
    var sent := RearmWatchdog(r.(hs := LogHandshake(r.hs, RetrySent(w.response))), w.response);
    HandshakeChangeOk(cfg, s, sent.hs);
    assert sent == s.(hs := sent.hs);
  }

  lemma RetryHandshakeOk(cfg: Config, s: Service, w: Watchdog, retry: RetryResult)
    requires Inv(cfg, s) && w in s.hs.watchdogs && Acts(s, w) && !w.second
    ensures Inv(cfg, RetryHandshake(cfg, Retrying(s, w), w.response, retry))
  {
    hide Inv, ControlError, HandshakeOk, RearmWatchdog;
    match retry {
      case Transmitted => SentRearmOk(cfg, s, w);
      case NoChannel => SilentRearmOk(cfg, s, w);
      case RetryThrew(what) =>
        Parts(cfg, s);
        FiredOk(s.hs, w);
        var fired := s.hs.(watchdogs := s.hs.watchdogs - {w});
        RetriesOk(fired, s.hs.retries + 1);
        RetriesOk(fired.(retries := s.hs.retries + 1), 0);
        var stopped := Retrying(s, w).hs.(awaiting := false);
        HandshakeChangeOk(cfg, s, stopped);
        ControlErrorOk(cfg, s.(hs := stopped), "Handshake retry failed: " + what);
    }
  }

  // ----- media channels -----

  lemma MediaOk(cfg: Config, s: Service)
    requires Inv(cfg, s)
    ensures Inv(cfg, OnVideoOpened(cfg, s)) && Inv(cfg, OnVideoSetup(cfg, s))
    ensures Inv(cfg, OnVideoStarted(cfg, s)) && Inv(cfg, OnVideoStopped(cfg, s))
    ensures forall started :: Inv(cfg, OnMediaAudio(cfg, s, started))
  {
    hide Inv, Publish, ProjectionOk;
    Parts(cfg, s);
    OpenedOk(cfg, s.conn, s.proj);
    ConfiguredOk(cfg, s.conn, s.proj);
    StartedOk(cfg, s.conn, s.proj);
    StoppedOk(cfg, s.conn, s.proj);
    PublishedOk(cfg, s, AddNote(s.proj.(channelOpen := true), OpenedNote));
    PublishedOk(cfg, s, AddNote(s.proj.(configured := true), ConfiguredNote));
    PublishedOk(cfg, s, AddNote(s.proj.(started := true), StartedNote));
    PublishedOk(cfg, s, AddNote(s.proj.(started := false, frame := false), StoppedNote));
    forall started ensures Inv(cfg, OnMediaAudio(cfg, s, started)) {
      AudioOk(cfg, s.conn, s.proj, started);
      PublishedOk(cfg, s, s.proj.(audioStarted := started));
    }
  }

  lemma PublishedOk(cfg: Config, s: Service, proj: Projection)
    requires Inv(cfg, s) && ProjectionOk(cfg, s.conn, proj)
    ensures Inv(cfg, Publish(cfg, s.(proj := proj)))
  {
    hide Inv, Publish, ProjectionOk;
    ProjectionChangeOk(cfg, s, proj);
    PublishOk(cfg, s.(proj := proj));
  }

  lemma OnVideoFrameOk(cfg: Config, s: Service, data: seq<Bytes.byte>)
    requires Inv(cfg, s)
    ensures Inv(cfg, OnVideoFrame(cfg, s, data))
  {
    hide Inv, Publish, ProjectionOk;
    Parts(cfg, s);
    if !cfg.h264 || H264.HasVcl(data) {
      FrameOk(cfg, s.conn, s.proj, data);
      ProjectionChangeOk(cfg, s, AddNote(s.proj.(frame := true), FrameNote(data)));
      PublishOk(cfg, s.(proj := AddNote(s.proj.(frame := true), FrameNote(data))));
    }
  }

  // ----- recovery and API -----

  lemma ClearedOk(cfg: Config, s: Service)
    requires Inv(cfg, s) && s.conn != Searching
    ensures Inv(cfg, ForgetSearch(s))
  {
    hide Inv, ResetRequests, RequestsOk;
    Parts(cfg, s);
    ResetRequestsOk(cfg, s.now, s.ver);
    HubStoppedOk(cfg, s);
    RequestsChangeOk(cfg, HubStopped(s), ResetRequests(s.ver));
  }

  lemma RecoveryTimersOk(cfg: Config, s: Service, controlTimeout: bool, full: bool, ok: bool, start: WirelessStart)
    requires ValidConfig(cfg) && Inv(cfg, s)
    ensures Inv(cfg, OnRecoveryRestart(cfg, s, controlTimeout, full, start))
    ensures Inv(cfg, OnRecoveryReinit(cfg, s, full, ok, start))
  {
    hide Inv, StartSearching, Disconnect, CleanupAasdk, CleanupChannels, TransitionTo, ForgetSearch;
    var fired := s.(deviceGone := false);
    SideFlagsOk(cfg, s, fired);
    DisconnectOk(cfg, fired);
    StartSearchingOk(cfg, Disconnect(cfg, fired), start);
    if s.conn != Searching {
      ClearedOk(cfg, fired);
      CleanupOk(cfg, ForgetSearch(fired));
    }
    SetupChannelsOk(cfg, s, NotBuilt);
    TransitionOk(cfg, SetupAasdk(s, false), Failed);
    StartSearchingOk(cfg, SetupAasdk(s, true), start);
    StartSearchingOk(cfg, s, start);
  }

  lemma IdleTimersOk(cfg: Config, s: Service, ok: bool, start: WirelessStart)
    requires ValidConfig(cfg) && Inv(cfg, s)
    ensures Inv(cfg, OnIdleDisconnect(cfg, s))
    ensures Inv(cfg, OnIdleTeardown(cfg, s)) && Inv(cfg, OnIdleReinit(cfg, s, ok, start))
  {
    hide Inv, StartSearching, CleanupAasdk, TransitionTo, ForgetSearch, Disconnect;
    SideFlagsOk(cfg, s, s.(deviceGone := true));
    DisconnectOk(cfg, s.(deviceGone := true));
    SideFlagsOk(cfg, s, s.(deviceGone := false));
    if s.conn == Disconnected {
      ClearedOk(cfg, s);
      CleanupOk(cfg, ForgetSearch(s));
    }
    SetupChannelsOk(cfg, s, NotBuilt);
    TransitionOk(cfg, SetupAasdk(s, false), Failed);
    var failed := TransitionTo(cfg, SetupAasdk(s, false), Failed);
    SideFlagsOk(cfg, failed, failed.(deviceGone := false));
    StartSearchingOk(cfg, SetupAasdk(s, true), start);
    var started := StartSearching(cfg, SetupAasdk(s, true), start);
    SideFlagsOk(cfg, started, started.(deviceGone := false));
  }

  lemma InitialisationOk(cfg: Config, s: Service, ok: bool)
    requires Inv(cfg, s)
    ensures Inv(cfg, Initialise(cfg, s, ok)) && Inv(cfg, Deinitialise(cfg, s))
  {
    hide Inv, StopSearching, DisconnectIfConnected, CleanupAasdk, TransitionTo;
    SetupChannelsOk(cfg, s, NotBuilt);
    var ready := SetupAasdk(s, true).(initialised := true);
    SideFlagsOk(cfg, s, ready);
    TransitionOk(cfg, ready, Disconnected);
    StopSearchingOk(cfg, s);
    DisconnectOk(cfg, StopSearching(cfg, s));
    var idle := DisconnectIfConnected(cfg, StopSearching(cfg, s));
    CleanupOk(cfg, idle);
    var clean := CleanupAasdk(cfg, idle);
    SideFlagsOk(cfg, clean, clean.(initialised := false));
    TransitionOk(cfg, clean.(initialised := false), Disconnected);
  }

  lemma TcpAcceptedOk(cfg: Config, s: Service, accepted: bool, setup: Setup, delay: nat)
    requires ValidConfig(cfg) && Inv(cfg, s) && s.search.accepts > 0
    ensures Inv(cfg, OnTcpAccepted(cfg, s, accepted, setup, delay))
  {
    hide Inv, Established, SetupChannels, TransitionTo, SearchOk;
    Parts(cfg, s);
    var taken := s.(search := s.search.(accepts := s.search.accepts - 1));
    AcceptsOk(cfg, s.conn, s.search, s.search.accepts - 1);
    SearchChangeOk(cfg, s, taken.search);
    SetupChannelsOk(cfg, taken, setup);
    EstablishedOk(cfg, SetupChannels(taken, setup), delay);
    TransitionOk(cfg, taken, Disconnected);
  }

  lemma HeartbeatTimerOk(cfg: Config, s: Service)
    requires Inv(cfg, s)
    ensures Inv(cfg, OnHeartbeat(s))
  {
    hide StoreOk, HandshakeOk, RequestsOk, SearchOk, GraceOk, ProjectionOk, RowStateOk, Heartbeat;
    HeartbeatOk(s.sess);
    HeartbeatKeepsRowState(s.sess);
  }

  lemma TickOk(cfg: Config, s: Service, ms: nat)
    requires Inv(cfg, s)
    ensures Inv(cfg, s.(now := s.now + ms))
  {
    hide SessionOk, HandshakeOk, SearchOk, ProjectionOk, RequestsOk;
    TimePassesOk(cfg, s.now, s.ver, s.now + ms);
  }

  // ----- the step and the run -----

  lemma OnCallOk(cfg: Config, s: Service, call: Call)
    requires ValidConfig(cfg) && Inv(cfg, s)
    ensures Inv(cfg, OnCall(cfg, s, call))
  {
    hide Inv, Initialise, Deinitialise, StartSearching, StopSearching, TransitionTo, Disconnect, DisconnectIfConnected;
    match call {
      case InitialiseCall(ok) => InitialisationOk(cfg, s, ok);
      case DeinitialiseCall => InitialisationOk(cfg, s, true);
      case StartSearchingCall(start) => StartSearchingOk(cfg, s, start);
      case StopSearchingCall => StopSearchingOk(cfg, s);
      case ConnectToDeviceCall(known) => TransitionOk(cfg, s, Connecting);
      case DisconnectCall => DisconnectOk(cfg, s);
      case DeviceRemoved => DisconnectOk(cfg, s);
    }
  }

  lemma OnCallbackOk(cfg: Config, s: Service, callback: Callback)
    requires Inv(cfg, s)
    ensures Inv(cfg, OnCallback(cfg, s, callback))
  {
    hide Inv, OnVersionResponse, OnHandshake, OnDiscoveryRequest, ConnectionLost, OnVideoOpened, OnVideoSetup,
      OnVideoStarted, OnVideoStopped, OnMediaAudio, OnVideoFrame, ChannelError, Classify;
    match callback {
      case VersionResponse(compatible, sent) => OnVersionResponseOk(cfg, s, compatible, sent);
      case HandshakeMessage(sent) => OnHandshakeOk(cfg, s, sent);
      case DiscoveryRequest => OnDiscoveryRequestOk(cfg, s);
      case ByeBye => ConnectionLostOk(cfg, s);
      case VideoOpened => MediaOk(cfg, s);
      case VideoSetup => MediaOk(cfg, s);
      case VideoStarted => MediaOk(cfg, s);
      case VideoStopped => MediaOk(cfg, s);
      case VideoFrame(data) => OnVideoFrameOk(cfg, s, data);
      case MediaStarted => MediaOk(cfg, s);
      case MediaStopped => MediaOk(cfg, s);
      case ErrorReported(source, text) => ChannelErrorOk(cfg, s, source, Classify(source == Control, text));
    }
  }

  lemma OnTimerOk(cfg: Config, s: Service, timer: Timer)
    requires ValidConfig(cfg) && Inv(cfg, s) && TimerPending(s, timer)
    ensures Inv(cfg, OnTimer(cfg, s, timer))
  {
    hide Inv, StartSearching, OnHeartbeat, OnWatchdog, VersionTimer, StartupTimer, OnRecoveryRestart, OnRecoveryReinit,
      OnIdleDisconnect, OnIdleTeardown, OnIdleReinit;
    match timer {
      case HeartbeatTimer => HeartbeatTimerOk(cfg, s);
      case WatchdogTimer(w, elapsed, retry) => OnWatchdogOk(cfg, s, w, elapsed, retry);
      case RequestTimer(token) => VersionTimerOk(cfg, s, token);
      case HubStartTimer => StartupTimerOk(cfg, s);
      case RecoveryRestart(controlTimeout, full, start) => RecoveryTimersOk(cfg, s, controlTimeout, full, true, start);
      case RecoveryReinit(full, ok, start) => RecoveryTimersOk(cfg, s, false, full, ok, start);
      case ImmediateRestart(start) =>
        SideFlagsOk(cfg, s, s.(deviceGone := false));
        StartSearchingOk(cfg, s.(deviceGone := false), start);
      case IdleRecoveryDisconnect => IdleTimersOk(cfg, s, true, Listen(true));
      case IdleRecoveryTeardown => IdleTimersOk(cfg, s, true, Listen(true));
      case IdleRecoveryReinit(ok, start) => IdleTimersOk(cfg, s, ok, start);
    }
  }

  lemma OnArrivalOk(cfg: Config, s: Service, arrival: Arrival)
    requires ValidConfig(cfg) && Inv(cfg, s) && ArrivalPending(s, arrival)
    ensures Inv(cfg, OnArrival(cfg, s, arrival))
  {
    hide Inv, SettleVersionRequest, SettleHub, Attach, OnTcpAccepted;
    match arrival {
      case RequestSettled(token, settlement) => SettleVersionRequestOk(cfg, s, token.chain, settlement);
      case HubSettled(promise, outcome) => SettleHubOk(cfg, s, promise, outcome);
      case ScanAttached(setup, delay) => AttachOk(cfg, s, setup, delay);
      case TcpAccepted(accepted, setup, delay) => TcpAcceptedOk(cfg, s, accepted, setup, delay);
    }
  }

  lemma StepOk(cfg: Config, s: Service, e: Event)
    requires ValidConfig(cfg) && Inv(cfg, s) && Enabled(cfg, s, e)
    ensures Inv(cfg, Step(cfg, s, e))
  {
    hide Inv, OnCall, OnCallback, OnTimer, OnArrival, TimerPending, ArrivalPending;
    match e {
      case Tick(ms) => TickOk(cfg, s, ms);
      case Called(call) => OnCallOk(cfg, s, call);
      case CalledBack(callback) => OnCallbackOk(cfg, s, callback);
      case Fired(timer) => OnTimerOk(cfg, s, timer);
      case Arrived(arrival) => OnArrivalOk(cfg, s, arrival);
    }
  }

  lemma InitialOk(cfg: Config, now: nat)
    requires now > 0
    ensures Inv(cfg, Initial(cfg, now))
  {
    var blank := Blank(now);
    forall id: nat ensures RowOk(blank.sess, id) {}
    forall r: nat ensures ResponseOk(blank.hs, r) {}
    forall c: nat ensures ChainOk(cfg, now, blank.ver, c) {}
    forall c: nat, w: nat ensures CountOk(cfg, blank.ver, c, w) {}
    ResetOk(cfg, blank, false);
  }

  /** Safety of every run: the invariant holds in every state any sequence of events can reach. */
  lemma {:induction false} EveryRunIsSafe(cfg: Config, now: nat, events: seq<Event>)
    requires ValidConfig(cfg) && now > 0
    ensures Replay(cfg, now, events).Some? ==> Inv(cfg, Replay(cfg, now, events).value)
  {
    hide Inv, Step, Enabled, Initial;
    if |events| == 0 {
      InitialOk(cfg, now);
    } else {
      var before := events[..|events| - 1];
      EveryRunIsSafe(cfg, now, before);
      match Replay(cfg, now, before) {
        case None =>
        case Some(s) =>
          if Enabled(cfg, s, events[|events| - 1]) {
            StepOk(cfg, s, events[|events| - 1]);
          }
      }
    }
  }
}
