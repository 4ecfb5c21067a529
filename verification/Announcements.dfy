/** What the service last said about its readiness, and when that is no longer true. */
module Announcements {
  import opened Bytes
  import opened ErrorText
  import opened ServiceState
  import opened Wrappers
  import opened ServiceSteps
  import opened ServiceEvents
  import opened ServiceProofs
  import opened ServiceTheorems
  import opened RequestChains
  import opened TwoChains
  import H264

  /** The newest note announces readiness as it is. */
  predicate Told(cfg: Config, s: Service) {
    s.proj.notes.Noted? && s.proj.notes.note == PublishedNote(Ready(cfg, s.conn, s.proj))
  }

  /** Nothing that readiness depends on changed between s and t, or it was announced after that. */
  predicate Tells(cfg: Config, s: Service, t: Service) {
    (t.conn == s.conn && t.proj == s.proj) || Told(cfg, t)
  }

  /** In H.264 passthrough: a frame has arrived since the last announcement, which said not ready. */
  predicate Untold(cfg: Config, s: Service) {
    && cfg.h264 && cfg.videoEnabled && s.proj.frame
    && s.proj.notes.Noted? && s.proj.notes.note.FrameNote?
    && s.proj.notes.past.Noted? && s.proj.notes.past.note == PublishedNote(false)
  }

  /** What the last announcement said. */
  predicate LastAnnounced(notes: Notes) {
    match notes
    case NoNotes => false
    case Noted(past, note) => if note.PublishedNote? then note.ready else LastAnnounced(past)
  }

  // ----- operations -----

  lemma PublishTells(cfg: Config, s: Service)
    ensures Told(cfg, Publish(cfg, s))
  {
  }

  lemma ResetTells(cfg: Config, s: Service, established: bool)
    ensures Told(cfg, ResetProjection(cfg, s, established))
    ensures Told(cfg, CleanupChannels(cfg, s)) && Told(cfg, CleanupAasdk(cfg, s))
  {
    hide ClearFlags, Outdate;
  }

  lemma TransitionTells(cfg: Config, s: Service, next: ConnectionState)
    ensures Tells(cfg, s, TransitionTo(cfg, s, next))
  {
    hide FollowConnection;
  }

  lemma DisconnectTells(cfg: Config, s: Service)
    ensures Tells(cfg, s, Disconnect(cfg, s)) && Tells(cfg, s, DisconnectIfConnected(cfg, s))
  {
    hide TransitionTo, ResetProjection, Ready;
    var leaving := TransitionTo(cfg, s, Disconnecting);
    ResetTells(cfg, leaving, false);
    TransitionTells(cfg, ResetProjection(cfg, leaving, false), Disconnected);
  }

  lemma ImmediateRecoveryTells(cfg: Config, s: Service)
    ensures Tells(cfg, s, ImmediateRecovery(cfg, s))
  {
    hide TransitionTo, CleanupChannels, Disconnect, ScheduleRecovery, Ready;
    var idle := Disconnect(cfg, ScheduleRecovery(s));
    ResetTells(cfg, idle, false);
    TransitionTells(cfg, CleanupChannels(cfg, idle), Disconnected);
  }

  lemma RecoverTells(cfg: Config, s: Service, cls: ErrorClass)
    ensures Tells(cfg, s, Recover(cfg, s, cls))
  {
    hide ImmediateRecovery, Disconnect, Ready;
    ImmediateRecoveryTells(cfg, s);
    DisconnectTells(cfg, s.(deviceGone := true));
  }

  lemma HandleErrorTells(cfg: Config, s: Service, source: Source, cls: ErrorClass)
    ensures Tells(cfg, s, HandleError(cfg, s, source, cls))
  {
    hide Recover, Ready, StopStream, Forgive, Publish;
    var forgiven := Forgive(s, source);
    PublishTells(cfg, forgiven.(proj := StopStream(forgiven.proj, source)));
    RecoverTells(cfg, NoteError(cfg, s, source), cls);
  }

  lemma ChannelErrorTells(cfg: Config, s: Service, source: Source, cls: ErrorClass)
    ensures Tells(cfg, s, ChannelError(cfg, s, source, cls))
  {
    hide HandleError, CountError, RecordGrace, Outdate, Ready;
    HandleErrorTells(cfg, OutdateWait(s), source, cls);
    HandleErrorTells(cfg, Escalate(CountPreHandshake(cfg, s)), source, cls);
    HandleErrorTells(cfg, s, source, cls);
  }

  lemma ControlErrorTells(cfg: Config, s: Service, text: string)
    ensures Tells(cfg, s, ControlError(cfg, s, text)) && Tells(cfg, s, HandlerError(cfg, s, Some(text)))
  {
    hide ChannelError, Classify, Ready;
    ChannelErrorTells(cfg, s, Control, Classify(true, text));
  }

  lemma SendTells(cfg: Config, s: Service, chain: nat)
    ensures Tells(cfg, s, SendVersionRequest(cfg, s, chain))
  {
    hide ControlError, VersionTimeoutText, Ready;
    var ver := s.ver.(first := if s.ver.first == 0 then s.now else s.ver.first);
    if s.now > ver.first {
      ControlErrorTells(cfg, s.(ver := ver), VersionTimeoutText(s.now - ver.first, ver.attempts));
    }
  }

  lemma RequestTimeoutTells(cfg: Config, s: Service, chain: nat, native2: bool, text: string)
    ensures Tells(cfg, s, RequestTimeout(cfg, s, chain, native2, text))
  {
    hide ControlError, ImmediateRecovery, RetryDelay, VersionAttemptsText, Ready;
    var counted := s.(ver := s.ver.(native2 := if native2 then s.ver.native2 + 1 else 0));
    ControlErrorTells(cfg, counted, text);
    ControlErrorTells(cfg, counted, VersionAttemptsText(counted.ver.attempts));
    ImmediateRecoveryTells(cfg, counted);
  }

  lemma SettleTells(cfg: Config, s: Service, chain: nat, settlement: Settlement)
    ensures Tells(cfg, s, SettleVersionRequest(cfg, s, chain, settlement))
  {
    hide ControlError, RequestTimeout, Ready;
    var taken := s.(ver := s.ver.(tokens := s.ver.tokens - {InFlight(chain)}));
    match settlement {
      case Delivered =>
      case InProgress =>
      case Rejected(text) => ControlErrorTells(cfg, taken, text);
      case UsbTimeout(native2, text) => RequestTimeoutTells(cfg, taken, chain, native2, text);
    }
  }

  lemma EstablishedTells(cfg: Config, s: Service, delay: nat)
    ensures Told(cfg, Established(cfg, s, delay))
  {
    hide ResetProjection, StartRequests, TransitionTo, Ready;
    var requested := StartRequests(cfg, ResetProjection(cfg, s, true), delay);
    PublishTells(cfg, TransitionTo(cfg, BeginSession(requested), Connected));
  }

  lemma StartSearchingTells(cfg: Config, s: Service, start: WirelessStart)
    ensures Told(cfg, StartSearching(cfg, s, start))
  {
    hide ResetProjection, TransitionTo, Established, SetupChannels, Ready;
    var reset := ResetProjection(cfg, s.(deviceGone := false), false);
    ResetTells(cfg, s.(deviceGone := false), false);
    TransitionTells(cfg, reset, Connecting);
    var connecting := TransitionTo(cfg, reset, Connecting);
    TransitionTells(cfg, Listening(connecting), Searching);
    TransitionTells(cfg, connecting, Disconnected);
    if start.Outbound? {
      EstablishedTells(cfg, SetupChannels(connecting, start.setup), start.delay);
    }
    TransitionTells(cfg, NextSearch(reset), Searching);
  }

  lemma StopSearchingTells(cfg: Config, s: Service)
    ensures Tells(cfg, s, StopSearching(cfg, s))
  {
    hide ResetProjection, TransitionTo, Ready;
    ResetTells(cfg, HubStopped(s), false);
    TransitionTells(cfg, ResetProjection(cfg, HubStopped(s), false), Disconnected);
  }

  // ----- steps -----

  lemma CallTells(cfg: Config, s: Service, call: Call)
    ensures Tells(cfg, s, OnCall(cfg, s, call))
  {
    hide StartSearching, StopSearching, TransitionTo, Disconnect, DisconnectIfConnected, CleanupAasdk, Ready;
    match call {
      case InitialiseCall(ok) => TransitionTells(cfg, SetupAasdk(s, true).(initialised := true), Disconnected);
      case DeinitialiseCall =>
        var idle := DisconnectIfConnected(cfg, StopSearching(cfg, s));
        ResetTells(cfg, idle, false);
        TransitionTells(cfg, CleanupAasdk(cfg, idle).(initialised := false), Disconnected);
      case StartSearchingCall(start) => StartSearchingTells(cfg, s, start);
      case StopSearchingCall => StopSearchingTells(cfg, s);
      case ConnectToDeviceCall(known) => TransitionTells(cfg, s, Connecting);
      case DisconnectCall => DisconnectTells(cfg, s);
      case DeviceRemoved => DisconnectTells(cfg, s);
    }
  }

  lemma ConnectionLostTells(cfg: Config, s: Service)
    ensures Tells(cfg, s, ConnectionLost(cfg, s))
  {
    hide ResetProjection, DisconnectIfConnected, Ready;
    ResetTells(cfg, s, false);
    DisconnectTells(cfg, ResetProjection(cfg, s, false));
  }

  lemma VersionResponseTells(cfg: Config, s: Service, compatible: bool, sent: SendResult)
    ensures Tells(cfg, s, OnVersionResponse(cfg, s, compatible, sent))
  {
    hide ControlError, TransitionTo, Ready, ResetRequests, Publish;
    var known, text := NoteVersion(cfg, s), "No compatible protocol version";
    PublishTells(cfg, s.(ver := ResetRequests(s.ver).(native2 := 0),
                         proj := AddNote(s.proj.(version := true), VersionNote)));
    ControlErrorTells(cfg, known, text);
    TransitionTells(cfg, ControlError(cfg, known, text), Failed);
    if sent.Threw? && sent.fault.Some? {
      ControlErrorTells(cfg, known, sent.fault.value);
    }
  }

  lemma HandshakeTells(cfg: Config, s: Service, sent: SendResult)
    ensures Tells(cfg, s, OnHandshake(cfg, s, sent)) && Tells(cfg, s, OnDiscoveryRequest(cfg, s))
  {
    hide ControlError, StopAwaiting, Ready, Publish;
    PublishTells(cfg, s.(hs := StopAwaiting(s.hs), proj := AddNote(s.proj.(discovery := true), DiscoveryNote)));
    if sent.Threw? && sent.fault.Some? {
      ControlErrorTells(cfg, s.(hs := StopAwaiting(s.hs)), sent.fault.value);
    }
  }

  lemma VideoTells(cfg: Config, s: Service)
    ensures Told(cfg, OnVideoOpened(cfg, s)) && Told(cfg, OnVideoSetup(cfg, s))
    ensures Told(cfg, OnVideoStarted(cfg, s)) && Told(cfg, OnVideoStopped(cfg, s))
  {
    hide Publish, Told;
    PublishTells(cfg, s.(proj := AddNote(s.proj.(channelOpen := true), OpenedNote)));
    PublishTells(cfg, s.(proj := AddNote(s.proj.(configured := true), ConfiguredNote)));
    PublishTells(cfg, s.(proj := AddNote(s.proj.(started := true), StartedNote)));
    PublishTells(cfg, s.(proj := AddNote(s.proj.(started := false, frame := false), StoppedNote)));
  }

  lemma AudioTells(cfg: Config, s: Service, started: bool)
    ensures Told(cfg, OnMediaAudio(cfg, s, started))
  {
    hide Publish, Told;
    PublishTells(cfg, s.(proj := s.proj.(audioStarted := started)));
  }

  lemma CallbackTells(cfg: Config, s: Service, callback: Callback)
    requires !callback.VideoFrame?
    ensures Tells(cfg, s, OnCallback(cfg, s, callback))
  {
    hide ChannelError, Classify, ConnectionLost, OnVersionResponse, OnHandshake, OnDiscoveryRequest, OnVideoOpened,
      OnVideoSetup, OnVideoStarted, OnVideoStopped, OnMediaAudio, Ready;
    VideoTells(cfg, s);
    AudioTells(cfg, s, true);
    AudioTells(cfg, s, false);
    match callback {
      case VersionResponse(compatible, sent) => VersionResponseTells(cfg, s, compatible, sent);
      case HandshakeMessage(sent) => HandshakeTells(cfg, s, sent);
      case DiscoveryRequest => HandshakeTells(cfg, s, SentOk);
      case ByeBye => ConnectionLostTells(cfg, s);
      case ErrorReported(source, text) => ChannelErrorTells(cfg, s, source, Classify(source == Control, text));
      case _ =>
    }
  }

  lemma RetryTells(cfg: Config, s: Service, response: nat, retry: RetryResult)
    ensures Tells(cfg, s, RetryHandshake(cfg, s, response, retry))
  {
    hide ControlError, Ready;
    if retry.RetryThrew? {
      ControlErrorTells(cfg, s.(hs := s.hs.(awaiting := false)), "Handshake retry failed: " + retry.what);
    }
  }

  lemma WatchdogTells(cfg: Config, s: Service, w: Watchdog, elapsed: nat, retry: RetryResult)
    ensures Tells(cfg, s, OnWatchdog(cfg, s, w, elapsed, retry))
  {
    hide ControlError, HandshakeTimeoutText, RetryHandshake, Ready, Acts;
    var fired := TakeWatchdog(s, w);
    ControlErrorTells(cfg, GiveUp(fired, w.response), HandshakeTimeoutText(elapsed));
    RetryTells(cfg, CountRetry(fired), w.response, retry);
  }

  lemma RestartTells(cfg: Config, s: Service, controlTimeout: bool, full: bool, ok: bool, start: WirelessStart)
    ensures Tells(cfg, s, OnRecoveryRestart(cfg, s, controlTimeout, full, start))
    ensures Tells(cfg, s, OnRecoveryReinit(cfg, s, full, ok, start))
  {
    hide StartSearching, Disconnect, CleanupChannels, CleanupAasdk, TransitionTo, Ready;
    var fired := s.(deviceGone := false);
    ResetTells(cfg, ForgetSearch(fired), false);
    StartSearchingTells(cfg, Disconnect(cfg, fired), start);
    TransitionTells(cfg, SetupAasdk(s, false), Failed);
    StartSearchingTells(cfg, if full then SetupAasdk(s, true) else s, start);
  }

  lemma IdleStopTells(cfg: Config, s: Service)
    ensures Tells(cfg, s, OnIdleDisconnect(cfg, s)) && Tells(cfg, s, OnIdleTeardown(cfg, s))
  {
    hide Disconnect, CleanupAasdk, Ready, ResetRequests;
    DisconnectTells(cfg, s.(deviceGone := true));
    ResetTells(cfg, ForgetSearch(s), false);
  }

  lemma IdleReinitTells(cfg: Config, s: Service, ok: bool, start: WirelessStart)
    ensures Tells(cfg, s, OnIdleReinit(cfg, s, ok, start))
  {
    hide StartSearching, TransitionTo, Ready;
    TransitionTells(cfg, SetupAasdk(s, false), Failed);
    StartSearchingTells(cfg, SetupAasdk(s, true), start);
  }

  lemma TimerTells(cfg: Config, s: Service, timer: Timer)
    requires TimerPending(s, timer)
    ensures Tells(cfg, s, OnTimer(cfg, s, timer))
  {
    hide StartSearching, OnRecoveryRestart, OnRecoveryReinit, OnIdleDisconnect, OnIdleTeardown, OnIdleReinit,
      SendVersionRequest, OnWatchdog, TransitionTo, Heartbeat, Ready;
    match timer {
      case HeartbeatTimer =>
      case WatchdogTimer(w, elapsed, retry) => WatchdogTells(cfg, s, w, elapsed, retry);
      case RequestTimer(token) => SendTells(cfg, s.(ver := s.ver.(tokens := s.ver.tokens - {token})), token.chain);
      case HubStartTimer =>
        TransitionTells(cfg, s.(search := s.search.(startupTimers := s.search.startupTimers - 1)), Disconnected);
      case RecoveryRestart(controlTimeout, full, start) => RestartTells(cfg, s, controlTimeout, full, true, start);
      case RecoveryReinit(full, ok, start) => RestartTells(cfg, s, true, full, ok, start);
      case ImmediateRestart(start) => StartSearchingTells(cfg, s.(deviceGone := false), start);
      case IdleRecoveryDisconnect => IdleStopTells(cfg, s);
      case IdleRecoveryTeardown => IdleStopTells(cfg, s);
      case IdleRecoveryReinit(ok, start) => IdleReinitTells(cfg, s, ok, start);
    }
  }

  lemma AttachTells(cfg: Config, s: Service, setup: Setup, delay: nat)
    ensures Told(cfg, Attach(cfg, s, setup, delay))
  {
    hide Established, SetupChannels, TransitionTo, Ready;
    EstablishedTells(cfg, SetupChannels(TransitionTo(cfg, s, Connecting), setup), delay);
  }

  lemma ArrivalTells(cfg: Config, s: Service, arrival: Arrival)
    requires ArrivalPending(s, arrival)
    ensures Tells(cfg, s, OnArrival(cfg, s, arrival))
  {
    hide SettleVersionRequest, Attach, Established, SetupChannels, TransitionTo, Ready;
    match arrival {
      case RequestSettled(token, settlement) => SettleTells(cfg, s, token.chain, settlement);
      case HubSettled(p, outcome) =>
        var taken := s.(search := s.search.(promises := s.search.promises - {p}));
        if outcome.Direct? {
          var attachments := Attached(taken.search.attachments, p.generation);
          AttachTells(cfg, taken.(search := taken.search.(attachments := attachments)), outcome.setup, outcome.delay);
        }
      case ScanAttached(setup, delay) => AttachTells(cfg, s, setup, delay);
      case TcpAccepted(accepted, setup, delay) =>
        var taken := s.(search := s.search.(accepts := s.search.accepts - 1));
        EstablishedTells(cfg, SetupChannels(taken, setup), delay);
        TransitionTells(cfg, taken, Disconnected);
    }
  }

  /** Every step but a video frame announces whatever it changes. */
  lemma StepTells(cfg: Config, s: Service, e: Event)
    requires Enabled(cfg, s, e) && !(e.CalledBack? && e.callback.VideoFrame?)
    ensures Tells(cfg, s, Step(cfg, s, e))
  {
    hide OnCall, OnCallback, OnTimer, OnArrival, TimerPending, ArrivalPending, Ready;
    match e {
      case Tick(_) =>
      case Called(call) => CallTells(cfg, s, call);
      case CalledBack(callback) => CallbackTells(cfg, s, callback);
      case Fired(timer) => TimerTells(cfg, s, timer);
      case Arrived(arrival) => ArrivalTells(cfg, s, arrival);
    }
  }

  // ----- runs -----

  lemma FrameTells(cfg: Config, s: Service, data: seq<byte>)
    requires Told(cfg, s) || Untold(cfg, s)
    ensures var t := OnVideoFrame(cfg, s, data); Told(cfg, t) || Untold(cfg, t)
  {
    hide H264.HasVcl;
  }

  lemma StepStaysCandid(cfg: Config, s: Service, e: Event)
    requires Enabled(cfg, s, e) && (Told(cfg, s) || Untold(cfg, s))
    ensures var t := Step(cfg, s, e); Told(cfg, t) || Untold(cfg, t)
  {
    hide OnCall, OnTimer, OnArrival, TimerPending, ArrivalPending, OnVideoFrame, Ready;
    if e.CalledBack? && e.callback.VideoFrame? {
      FrameTells(cfg, s, e.callback.data);
    } else {
      hide OnCallback;
      StepTells(cfg, s, e);
    }
  }

  lemma {:induction false} ReplayIsCandid(cfg: Config, now: nat, events: seq<Event>)
    ensures var end := Replay(cfg, now, events); end.Some? ==> Told(cfg, end.value) || Untold(cfg, end.value)
  {
    hide Step, Enabled, Told, Untold;
    if |events| == 0 {
      ResetTells(cfg, Blank(now), false);
    } else {
      var before, last := events[..|events| - 1], events[|events| - 1];
      ReplayIsCandid(cfg, now, before);
      match Replay(cfg, now, before) {
        case None =>
        case Some(s) => if Enabled(cfg, s, last) { StepStaysCandid(cfg, s, last); }
      }
    }
  }

  lemma ReachableIsCandid(cfg: Config, s: Service)
    requires Reachable(cfg, s)
    ensures Told(cfg, s) || Untold(cfg, s)
  {
    hide Replay, Told, Untold;
    var now: nat, events: seq<Event> :| now > 0 && Replay(cfg, now, events) == Some(s);
    ReplayIsCandid(cfg, now, events);
  }

  /** Outside H.264 passthrough, readiness as it is was announced last, in every reachable state. */
  lemma ReadinessIsAnnounced(cfg: Config, s: Service)
    requires Reachable(cfg, s) && (!cfg.h264 || !cfg.videoEnabled)
    ensures s.proj.notes.Noted? && s.proj.notes.note == PublishedNote(Ready(cfg, s.conn, s.proj))
  {
    hide Reachable;
    ReachableIsCandid(cfg, s);
  }

  /** In every reachable state, under every configuration: what was announced last is wrong exactly
      when the service is ready and nothing has happened to the status since a frame arrived. The
      core never claims a readiness it does not have. */
  lemma AnnouncementIsStaleIff(cfg: Config, s: Service)
    requires Reachable(cfg, s)
    ensures s.proj.notes.Noted?
    ensures LastAnnounced(s.proj.notes) != Ready(cfg, s.conn, s.proj) <==>
            Ready(cfg, s.conn, s.proj) && s.proj.notes.note.FrameNote?
    ensures LastAnnounced(s.proj.notes) ==> Ready(cfg, s.conn, s.proj)
  {
    hide Reachable;
    ReachableIsCandid(cfg, s);
  }

  // ----- a run to readiness -----

  /** CONNECTED over a control channel, before the first frame. */
  predicate Fresh(s: Service) {
    s.conn == Connected && s.control && !s.proj.frame
  }

  lemma EstablishedIsFresh(cfg: Config, s: Service, delay: nat)
    requires s.control
    ensures Fresh(Established(cfg, s, delay))
  {
    EstablishedAdvances(cfg, s, delay);
    hide ResetProjection, StartRequests, TransitionTo, CreateSession, Ready, Begins;
    var reset := ResetProjection(cfg, s, true);
    ResetForgets(cfg, s);
    StartRequestsFrame(cfg, reset, delay);
    TransitionKeeps(cfg, BeginSession(StartRequests(cfg, reset, delay)));
  }

  lemma ConnectOutbound(cfg: Config, s: Service) returns (t: Service)
    requires Reachable(cfg, s) && cfg.wireless && Down(s)
    ensures Reachable(cfg, t) && Fresh(t)
  {
    hide Reachable, ResetProjection, TransitionTo, Established, Fresh;
    TransitionFrame(cfg, SetupAasdk(s, true).(initialised := true), Disconnected);
    StepIsReachable(cfg, s, Called(InitialiseCall(true)));
    var ready := Step(cfg, s, Called(InitialiseCall(true)));
    var call := StartSearchingCall(Outbound(true, Built, 500));
    StepIsReachable(cfg, ready, Called(call));
    t := Step(cfg, ready, Called(call));
    ResetFrame(cfg, ready.(deviceGone := false), false);
    var reset := ResetProjection(cfg, ready.(deviceGone := false), false);
    EstablishedIsFresh(cfg, SetupChannels(TransitionTo(cfg, reset, Connecting), Built), 500);
  }

  lemma ConnectAnyhow(cfg: Config) returns (t: Service)
    requires ValidConfig(cfg)
    ensures Reachable(cfg, t) && Fresh(t)
  {
    InitialIsReachable(cfg, 1);
    InitialIsDown(cfg);
    hide Reachable, Initial, Down;
    if cfg.wireless {
      t := ConnectOutbound(cfg, Initial(cfg, 1));
    } else {
      var searching := SearchFromDown(cfg, Initial(cfg, 1));
      t := ConnectFromSearch(cfg, searching);
    }
  }

  /** The phone's version and the discovery request arrive. */
  lemma Negotiate(cfg: Config, s: Service) returns (t: Service)
    requires Reachable(cfg, s) && Fresh(s)
    ensures Reachable(cfg, t) && Fresh(t) && t.proj.version && t.proj.discovery
  {
    hide Reachable, Ready, ResetRequests;
    var answer, discovery := CalledBack(VersionResponse(true, SentOk)), CalledBack(DiscoveryRequest);
    StepIsReachable(cfg, s, answer);
    StepIsReachable(cfg, Step(cfg, s, answer), discovery);
    t := Step(cfg, Step(cfg, s, answer), discovery);
  }

  /** The video channel is opened, set up and started. */
  lemma OpenVideo(cfg: Config, s: Service) returns (t: Service)
    requires Reachable(cfg, s) && Fresh(s) && s.proj.version && s.proj.discovery
    ensures Reachable(cfg, t) && Fresh(t) && t.proj.version && t.proj.discovery
    ensures t.proj.channelOpen && t.proj.configured && t.proj.started
  {
    hide Reachable, Ready;
    StepIsReachable(cfg, s, CalledBack(VideoOpened));
    var open := Step(cfg, s, CalledBack(VideoOpened));
    StepIsReachable(cfg, open, CalledBack(VideoSetup));
    var configured := Step(cfg, open, CalledBack(VideoSetup));
    StepIsReachable(cfg, configured, CalledBack(VideoStarted));
    t := Step(cfg, configured, CalledBack(VideoStarted));
  }

  lemma ShortestSlice(data: seq<byte>)
    requires data == [0, 0, 1, 1]
    ensures H264.HasVcl(data)
  {
    assert H264.IsHeader(data, 3) && H264.IsVcl(H264.NalType(data[3]));
  }

  lemma FrameCompletes(cfg: Config, s: Service, data: seq<byte>)
    requires Fresh(s) && s.proj.version && s.proj.discovery
    requires s.proj.channelOpen && s.proj.configured && s.proj.started && H264.HasVcl(data)
    ensures var t := OnVideoFrame(cfg, s, data);
            && Ready(cfg, t.conn, t.proj)
            && (cfg.h264 && cfg.videoEnabled ==> t.proj.notes.Noted? && t.proj.notes.note.FrameNote?)
  {
    hide H264.HasVcl;
  }

  lemma ReceiveFrame(cfg: Config, s: Service) returns (t: Service)
    requires Reachable(cfg, s) && Fresh(s) && s.proj.version && s.proj.discovery
    requires s.proj.channelOpen && s.proj.configured && s.proj.started
    ensures Reachable(cfg, t) && Ready(cfg, t.conn, t.proj)
    ensures cfg.h264 && cfg.videoEnabled ==> t.proj.notes.Noted? && t.proj.notes.note.FrameNote?
  {
    hide Reachable, H264.HasVcl, OnVideoFrame, Ready, Fresh;
    var slice: seq<byte> := [0, 0, 1, 1];
    ShortestSlice(slice);
    FrameCompletes(cfg, s, slice);
    StepIsReachable(cfg, s, CalledBack(VideoFrame(slice)));
    t := Step(cfg, s, CalledBack(VideoFrame(slice)));
  }

  /** Under every configuration the service becomes ready; and what it announced last is then the
      opposite exactly if it passes the video through. */
  lemma ReadyIsReachable(cfg: Config)
    requires ValidConfig(cfg)
    ensures exists s :: Reachable(cfg, s) && Ready(cfg, s.conn, s.proj)
                        && (LastAnnounced(s.proj.notes) <==> !(cfg.h264 && cfg.videoEnabled))
  {
    hide Reachable, Ready, LastAnnounced;
    var connected := ConnectAnyhow(cfg);
    var negotiated := Negotiate(cfg, connected);
    var open := OpenVideo(cfg, negotiated);
    var ready := ReceiveFrame(cfg, open);
    AnnouncementIsStaleIff(cfg, ready);
    if !(cfg.h264 && cfg.videoEnabled) {
      ReadinessIsAnnounced(cfg, ready);
    }
  }
}
