/** What a caller sees of single operations, in reachable states. */
module Observations {
  import opened Bytes
  import opened ErrorText
  import opened ServiceState
  import opened ServiceSteps
  import opened ServiceEvents
  import opened ServiceInvariants
  import opened ServiceProofs
  import opened ServiceTheorems
  import opened Announcements
  import opened HandshakeQuiet
  import opened RequestChains
  import opened SessionRows
  import H264

  /** No session: none is current, none is open in the store, and no heartbeat runs. */
  ghost predicate NoSession(sess: Sessions) {
    sess.current.None? && !sess.heartbeat && forall id: nat :: !Open(sess.log, id)
  }

  /** What the connection state says about the session. */
  ghost predicate SessionFits(s: Service) {
    && (s.conn == Connected ==> s.sess.state == Active && s.sess.current.Some?)
    && (s.conn == Connecting ==> s.sess.state == Negotiating && !s.sess.heartbeat)
    && (s.conn == Disconnected || s.conn == Searching || s.conn == Failed ==> NoSession(s.sess))
  }

  lemma ReachableFits(cfg: Config, s: Service)
    requires Reachable(cfg, s)
    ensures SessionFits(s)
  {
    hide Reachable;
    SessionLifecycleHolds(cfg, s);
  }

  /** The session is over: its row was ended, once, and nothing took its place. */
  ghost predicate SessionOver(before: Sessions, after: Sessions) {
    NoSession(after) && (before.current.Some? ==> EndCount(after.log, before.current.value) == 1)
  }

  lemma SessionOfDisconnect(cfg: Config, s: Service)
    requires s.conn == Connected && s.sess.state == Active
    ensures Disconnect(cfg, s).sess == EnterSession(s.sess, Ended) && Disconnect(cfg, s).conn == Disconnected
  {
    hide ResetProjection, Ready, EnterSession;
    var leaving := TransitionTo(cfg, s, Disconnecting);
    ResetFrame(cfg, leaving, false);
  }

  lemma EndingEndsRow(sess: Sessions)
    requires StoreOk(sess) && sess.current.Some? && sess.state == Active
    ensures EndCount(EnterSession(sess, Ended).log, sess.current.value) == 1
  {
    assert RowOk(sess, sess.current.value);
  }

  lemma DisconnectEndsSession(cfg: Config, s: Service)
    requires Reachable(cfg, s) && s.conn == Connected
    ensures Disconnect(cfg, s).conn == Disconnected && SessionOver(s.sess, Disconnect(cfg, s).sess)
  {
    ReachableOk(cfg, s);
    hide Reachable, Disconnect, RestOk, StoreOk, EnterSession, NoSession;
    ReachableFits(cfg, s);
    SessionOfDisconnect(cfg, s);
    DisconnectIsReachable(cfg, s);
    ReachableFits(cfg, Disconnect(cfg, s));
    EndingEndsRow(s.sess);
  }

  lemma DisconnectIsReachable(cfg: Config, s: Service)
    requires Reachable(cfg, s)
    ensures Reachable(cfg, Disconnect(cfg, s))
  {
    hide Reachable, Disconnect;
    StepIsReachable(cfg, s, Called(DisconnectCall));
  }

  lemma GiveUpConnecting(cfg: Config, s: Service)
    requires s.conn == Connecting
    ensures Disconnect(cfg, s).conn == Disconnected
  {
    hide TransitionTo, ResetProjection;
    TransitionFrame(cfg, ResetProjection(cfg, TransitionTo(cfg, s, Disconnecting), false), Disconnected);
    ResetFrame(cfg, TransitionTo(cfg, s, Disconnecting), false);
    TransitionFrame(cfg, s, Disconnecting);
  }

  /** From CONNECTED, disconnect ends the session; from CONNECTING it gives up; else it does nothing. */
  lemma DisconnectObserved(cfg: Config, s: Service)
    requires Reachable(cfg, s)
    ensures var t := Disconnect(cfg, s);
            && t.conn == (if s.conn == Connected || s.conn == Connecting then Disconnected else s.conn)
            && (s.conn == Connected ==> SessionOver(s.sess, t.sess))
            && (s.conn != Connected && s.conn != Connecting ==> t == s)
  {
    hide Reachable, Disconnect, SessionOver;
    DisconnectElsewhere(cfg, s);
    if s.conn == Connected {
      DisconnectEndsSession(cfg, s);
    } else if s.conn == Connecting {
      GiveUpConnecting(cfg, s);
    }
  }

  lemma DisconnectElsewhere(cfg: Config, s: Service)
    ensures s.conn != Connected && s.conn != Connecting ==> Disconnect(cfg, s) == s
  {
    hide TransitionTo, ResetProjection;
  }

  /** Where a search leads, and what a refused one leaves alone. */
  function SearchLeadsTo(cfg: Config, start: WirelessStart): ConnectionState {
    if !cfg.wireless then Searching
    else
      match start
      case Listen(ok) => if ok then Searching else Disconnected
      case Outbound(ok, _, _) => if ok then Connected else Disconnected
  }

  lemma ResetForgetsGrace(cfg: Config, s: Service, established: bool)
    ensures ResetProjection(cfg, s, established).grace.noDevice == 0
  {
    hide Ready, ClearFlags, Outdate;
  }

  lemma EstablishedForgets(cfg: Config, s: Service, delay: nat)
    ensures var t := Established(cfg, s, delay);
            && !t.deviceGone && t.grace.noDevice == 0
            && t.initialised == s.initialised && t.stack == s.stack && t.teardown == s.teardown
  {
    hide ResetProjection, StartRequests, TransitionTo, CreateSession, Ready;
    var reset := ResetProjection(cfg, s, true);
    ResetForgetsGrace(cfg, s, true);
    ResetFrame(cfg, s, true);
    StartRequestsFrame(cfg, reset, delay);
    TransitionFrame(cfg, BeginSession(StartRequests(cfg, reset, delay)), Connected);
  }

  /** A connection over a new control handler: its first request is scheduled or sent at once, with all
      counters at their start; pending requests of earlier connections stay. */
  lemma FirstRequestFollows(cfg: Config, s: Service, delay: nat)
    requires s.control && !s.handler
    ensures var t := Established(cfg, s, delay);
            && t.conn == Connected && t.handler && t.ver.native2 == 0 && t.hs.retries == 0
            && t.ver.chains == s.ver.chains + 1 && t.ver.window == s.ver.window + 1
            && (delay > 0 ==>
                  && t.ver.tokens == s.ver.tokens + {Waiting(s.ver.chains, s.now + delay, true)}
                  && t.ver.sends == s.ver.sends && t.ver.attempts == 0 && t.ver.first == 0)
            && (delay == 0 ==>
                  && t.ver.tokens == s.ver.tokens + {InFlight(s.ver.chains)}
                  && t.ver.sends == Sent(s.ver.sends, s.ver.chains, s.now, s.ver.window + 1)
                  && t.ver.attempts == 1 && t.ver.first == s.now)
  {
    hide ResetProjection, StartRequests, TransitionTo, CreateSession, Ready;
    var reset := ResetProjection(cfg, s, true);
    ResetFrame(cfg, s, true);
    RequestsStarted(cfg, reset, delay);
    TransitionFrame(cfg, BeginSession(StartRequests(cfg, reset, delay)), Connected);
  }

  lemma RequestsStarted(cfg: Config, s: Service, delay: nat)
    requires s.control && !s.handler
    ensures var t := StartRequests(cfg, s, delay);
            && t == s.(handler := true, hs := s.hs.(retries := 0), ver := t.ver)
            && t.ver == s.ver.(chains := s.ver.chains + 1, window := s.ver.window + 1, native2 := 0,
                               tokens := t.ver.tokens, sends := t.ver.sends,
                               attempts := t.ver.attempts, first := t.ver.first)
            && (delay > 0 ==>
                  && t.ver.tokens == s.ver.tokens + {Waiting(s.ver.chains, s.now + delay, true)}
                  && t.ver.sends == s.ver.sends && t.ver.attempts == 0 && t.ver.first == 0)
            && (delay == 0 ==>
                  && t.ver.tokens == s.ver.tokens + {InFlight(s.ver.chains)}
                  && t.ver.sends == Sent(s.ver.sends, s.ver.chains, s.now, s.ver.window + 1)
                  && t.ver.attempts == 1 && t.ver.first == s.now)
  {
    hide ControlError, VersionTimeoutText;
  }

  lemma StartSearchingObserved(cfg: Config, s: Service, start: WirelessStart)
    ensures var t := StartSearching(cfg, s, start);
            && !t.hs.awaiting && !t.deviceGone && t.grace.noDevice == 0
            && (s.initialised && s.conn == Disconnected ==> t.conn == SearchLeadsTo(cfg, start))
            && (!s.initialised || s.conn != Disconnected ==> t.conn == s.conn && t.sess == s.sess && t.ver == s.ver)
  {
    hide ResetProjection, TransitionTo, Established, SetupChannels;
    StartSearchingEndsWait(cfg, s, start);
    ResetForgetsGrace(cfg, s.(deviceGone := false), false);
    var reset := ResetProjection(cfg, s.(deviceGone := false), false);
    ResetFrame(cfg, s.(deviceGone := false), false);
    var connecting := TransitionTo(cfg, reset, Connecting);
    TransitionFrame(cfg, reset, Connecting);
    TransitionFrame(cfg, connecting, Disconnected);
    TransitionFrame(cfg, Listening(connecting), Searching);
    if start.Outbound? {
      var ready := SetupChannels(connecting, start.setup);
      SessionOfEstablished(cfg, ready, start.delay);
      EstablishedForgets(cfg, ready, start.delay);
    }
    TransitionFrame(cfg, NextSearch(reset), Searching);
  }

  /** What s and t have to agree on for a search not to touch the stack. */
  predicate SameStack(s: Service, t: Service) {
    t.stack == s.stack && t.initialised == s.initialised && (!s.teardown ==> !t.teardown)
  }

  lemma SetupKeepsStack(s: Service, setup: Setup)
    ensures SameStack(s, SetupChannels(s, setup))
  {
  }

  lemma SearchKeepsStack(cfg: Config, s: Service, start: WirelessStart)
    ensures SameStack(s, StartSearching(cfg, s, start))
  {
    hide ResetProjection, TransitionTo, Established, SetupChannels;
    var reset := ResetProjection(cfg, s.(deviceGone := false), false);
    ResetFrame(cfg, s.(deviceGone := false), false);
    var connecting := TransitionTo(cfg, reset, Connecting);
    TransitionFrame(cfg, reset, Connecting);
    TransitionFrame(cfg, connecting, Disconnected);
    TransitionFrame(cfg, Listening(connecting), Searching);
    if start.Outbound? {
      SetupKeepsStack(connecting, start.setup);
      EstablishedForgets(cfg, SetupChannels(connecting, start.setup), start.delay);
    }
    TransitionFrame(cfg, NextSearch(reset), Searching);
  }

  /** Every reset of the projection status outdates the wait: no retry is counted, no timer is current. */
  lemma ResetOutdates(cfg: Config, s: Service, established: bool)
    ensures var t := ResetProjection(cfg, s, established);
            && !t.hs.awaiting && t.hs.retries == 0 && t.hs.epoch == s.hs.epoch + 1
            && t.hs.watchdogs == s.hs.watchdogs && t.hs.responses == s.hs.responses
  {
    hide Ready, ClearFlags;
  }

  lemma StopSearchingObserved(cfg: Config, s: Service)
    ensures var t := StopSearching(cfg, s);
            && (s.conn == Searching ==> t.conn == Disconnected && !t.hs.awaiting)
            && (s.conn != Searching ==> t == s)
  {
    hide ResetProjection, TransitionTo;
    StopSearchingCalm(cfg, s);
    TransitionFrame(cfg, ResetProjection(cfg, HubStopped(s), false), Disconnected);
  }

  lemma CleanedUp(cfg: Config, s: Service)
    ensures var t := CleanupAasdk(cfg, s);
            && t.conn == s.conn && !t.stack && !t.control && !t.handler && !t.pipeline && t.initialised == s.initialised
            && t.teardown && t.sess == s.sess && t.ver == s.ver
    ensures var t := CleanupChannels(cfg, s);
            && t.conn == s.conn && !t.control && !t.handler && !t.pipeline
            && t.teardown && t.sess == s.sess && t.ver == s.ver && t.stack == s.stack
  {
    hide ResetProjection;
    ResetFrame(cfg, s.(teardown := true, pipeline := false, control := false, handler := false), false);
  }

  /** deinitialise leaves nothing behind but what is already scheduled. */
  lemma DeinitialiseObserved(cfg: Config, s: Service)
    requires s.initialised
    ensures var t := Deinitialise(cfg, s);
            && t.conn == Disconnected && !t.initialised && !t.stack && !t.control && !t.handler && !t.pipeline
            && t.teardown && t.ver == s.ver
  {
    hide StopSearching, DisconnectIfConnected, CleanupAasdk, TransitionTo;
    StopSearchingSame(cfg, s);
    var stopped := StopSearching(cfg, s);
    DisconnectSame(cfg, stopped);
    var idle := DisconnectIfConnected(cfg, stopped);
    CleanupSame(cfg, idle);
    CleanedUp(cfg, idle);
    TransitionFrame(cfg, CleanupAasdk(cfg, idle).(initialised := false), Disconnected);
  }

  lemma ConnectionLostObserved(cfg: Config, s: Service)
    requires Reachable(cfg, s)
    ensures var t := ConnectionLost(cfg, s); t.conn != Connected && !t.hs.awaiting
  {
    ReachableOk(cfg, s);
    hide Inv, Reachable, ResetProjection, DisconnectIfConnected, OnCallback;
    assert EndsWait(s, CalledBack(ByeBye));
    CallbackEndsWait(cfg, s, ByeBye);
    ByeByeIs(cfg, s);
    ResetOk(cfg, s, false);
    LostIsNotConnected(cfg, ResetProjection(cfg, s, false));
  }

  lemma ByeByeIs(cfg: Config, s: Service)
    ensures OnCallback(cfg, s, ByeBye) == ConnectionLost(cfg, s)
  {
    hide ConnectionLost;
  }

  lemma LostIsNotConnected(cfg: Config, s: Service)
    requires Inv(cfg, s)
    ensures DisconnectIfConnected(cfg, s).conn != Connected
  {
    hide Inv, Disconnect;
    DisconnectOk(cfg, s);
  }

  /** An incompatible version ends in ERROR; a compatible one is awaited further. */
  lemma VersionResponseObserved(cfg: Config, s: Service, compatible: bool, sent: SendResult)
    ensures var t := OnVersionResponse(cfg, s, compatible, sent);
            && (!s.control ==> t == s)
            && (s.control && !compatible ==> t.conn == Failed)
            && (s.control && compatible && sent.SentOk? ==> t.hs.awaiting && t.proj.version && t.conn == s.conn)
  {
    hide ControlError, HandlerError, Ready, ResetRequests;
    hide TransitionTo;
    TransitionFrame(cfg, ControlError(cfg, NoteVersion(cfg, s), "No compatible protocol version"), Failed);
  }

  /** The status was announced as it is, and readiness only when it is justified. */
  ghost predicate Announced(cfg: Config, s: Service) {
    && Told(cfg, s)
    && (Ready(cfg, s.conn, s.proj) ==> Justified(cfg, s.proj.notes.past))
  }

  lemma PublishAnnounces(cfg: Config, s: Service)
    requires Reachable(cfg, Publish(cfg, s))
    ensures Announced(cfg, Publish(cfg, s))
  {
    ReachableOk(cfg, Publish(cfg, s));
    hide Reachable, Justified, SessionOk, HandshakeOk, RequestsOk, SearchOk, GraceOk, FlagsMatch, FramesCarrySlices;
  }

  /** What an error leaves alone. */
  lemma ChannelErrorObserved(cfg: Config, s: Service, source: Source, text: string)
    ensures var t := ChannelError(cfg, s, source, Classify(source == Control, text));
            && (s.teardown ==> t == s)
            && (s.conn == Connected && IsRecoverableUsbReceive(text) ==> Undisturbed(s, t))
            && (source == Control && !s.teardown ==> !t.hs.awaiting)
  {
    hide ChannelError, IsRecoverableUsbReceive;
    var cls := Classify(source == Control, text);
    if s.teardown {
      IgnoredInTeardown(cfg, s, source, cls);
    }
    ChannelErrorCalm(cfg, s, source, cls);
    if s.conn == Connected && cls.recoverable {
      RecoverableErrorIsAbsorbed(cfg, s, source, cls);
    }
  }

  lemma IgnoredInTeardown(cfg: Config, s: Service, source: Source, cls: ErrorClass)
    requires s.teardown
    ensures ChannelError(cfg, s, source, cls) == s
  {
    hide HandleError;
  }

  lemma AttachConnects(cfg: Config, s: Service, setup: Setup, delay: nat)
    ensures Attach(cfg, s, setup, delay).conn == Connected
  {
    hide Established, SetupChannels, TransitionTo;
    SessionOfEstablished(cfg, SetupChannels(TransitionTo(cfg, s, Connecting), setup), delay);
  }

  lemma RefusedAcceptObserved(cfg: Config, s: Service, setup: Setup, delay: nat)
    requires s.search.accepts > 0
    ensures OnTcpAccepted(cfg, s, false, setup, delay).conn == Disconnected
  {
    hide TransitionTo;
    TransitionFrame(cfg, s.(search := s.search.(accepts := s.search.accepts - 1)), Disconnected);
  }

  /** A chain goes on: what is pending or sent belongs to chains that were pending. */
  lemma ArrivalContinues(cfg: Config, s: Service, chain: nat, settlement: Settlement)
    requires InFlight(chain) in s.ver.tokens
    ensures Continues(s.ver, SettleVersionRequest(cfg, s, chain, settlement).ver)
  {
    hide SettleVersionRequest, Continues;
    SettleBeginsNothing(cfg, s, chain, settlement);
    SettleAdvances(cfg, s, chain, settlement);
  }

  lemma SettleBeginsNothing(cfg: Config, s: Service, chain: nat, settlement: Settlement)
    ensures SettleVersionRequest(cfg, s, chain, settlement).ver.chains == s.ver.chains
  {
    hide ControlError, RequestTimeout;
    var taken := s.(ver := s.ver.(tokens := s.ver.tokens - {InFlight(chain)}));
    match settlement {
      case Delivered =>
      case InProgress =>
      case Rejected(text) => ControlErrorDrops(cfg, taken, text);
      case UsbTimeout(native2, text) => TimeoutBeginsNothing(cfg, taken, chain, native2, text);
    }
  }

  lemma TimeoutBeginsNothing(cfg: Config, s: Service, chain: nat, native2: bool, text: string)
    ensures RequestTimeout(cfg, s, chain, native2, text).ver.chains == s.ver.chains
  {
    hide ControlError, ImmediateRecovery, RetryDelay, VersionAttemptsText;
    var counted := s.(ver := s.ver.(native2 := if native2 then s.ver.native2 + 1 else 0));
    ControlErrorDrops(cfg, counted, text);
    ControlErrorDrops(cfg, counted, VersionAttemptsText(counted.ver.attempts));
    ImmediateRecoveryDrops(cfg, counted);
  }

  lemma TimerContinues(cfg: Config, s: Service, token: Token)
    requires token in s.ver.tokens && token.Waiting?
    ensures var t := VersionTimer(cfg, s, token);
            Continues(s.ver, t.ver) && token !in t.ver.tokens
  {
    hide SendVersionRequest, Continues;
    var taken := s.(ver := s.ver.(tokens := s.ver.tokens - {token}));
    VersionTimerAdvances(cfg, s, token);
    SendTakesNoTimer(cfg, taken, token.chain, token);
  }

  lemma SendTakesNoTimer(cfg: Config, s: Service, chain: nat, token: Token)
    requires token.Waiting? && token !in s.ver.tokens
    ensures var t := SendVersionRequest(cfg, s, chain);
            t.ver.chains == s.ver.chains && token !in t.ver.tokens
  {
    hide ControlError, VersionTimeoutText;
    var ver := s.ver.(first := if s.ver.first == 0 then s.now else s.ver.first);
    if s.now > ver.first {
      ControlErrorDrops(cfg, s.(ver := ver), VersionTimeoutText(s.now - ver.first, ver.attempts));
    }
  }

  // ----- calls and timers -----

  lemma InitialiseObserved(cfg: Config, s: Service, ok: bool)
    requires Reachable(cfg, s)
    ensures var t := Initialise(cfg, s, ok);
            && t.initialised == (s.initialised || ok)
            && (!s.initialised && ok ==> t.stack && t.conn == Disconnected && NoSession(t.sess))
            && (s.initialised ==> t == s)
  {
    hide Reachable, TransitionTo, NoSession;
    TransitionFrame(cfg, SetupAasdk(s, true).(initialised := true), Disconnected);
    StepIsReachable(cfg, s, Called(InitialiseCall(ok)));
    hide Initialise;
    ReachableFits(cfg, Initialise(cfg, s, ok));
  }

  lemma ConnectToDeviceObserved(cfg: Config, s: Service)
    requires Reachable(cfg, s) && s.initialised
    ensures var t := TransitionTo(cfg, s, Connecting);
            t.conn == Connecting && t.sess.state == Negotiating && !t.sess.heartbeat
  {
    hide Reachable, TransitionTo;
    TransitionFrame(cfg, s, Connecting);
    StepIsReachable(cfg, s, Called(ConnectToDeviceCall(true)));
    ReachableFits(cfg, TransitionTo(cfg, s, Connecting));
  }

  /** The states from which a plain restart searches: it gives a connection up first. */
  predicate CanRestart(conn: ConnectionState) {
    conn == Connected || conn == Connecting || conn == Disconnected
  }

  lemma RecoveryRestartObserved(cfg: Config, s: Service, controlTimeout: bool, full: bool, start: WirelessStart)
    ensures var t := OnRecoveryRestart(cfg, s, controlTimeout, full, start);
            && (s.conn == Searching ==> t == s.(deviceGone := false))
            && (s.conn != Searching ==> !t.hs.awaiting)
            && (s.conn != Searching && controlTimeout ==>
                  && t.conn == s.conn && !t.control && t.teardown && t.sess == s.sess
                  && t.ver.attempts == 0 && t.ver.first == 0 && !t.search.hubStarted
                  && t.stack == (s.stack && !full))
            && (s.initialised && !controlTimeout && CanRestart(s.conn) ==> t.conn == SearchLeadsTo(cfg, start))
  {
    RestartSearches(cfg, s, start);
    RecoveryCalm(cfg, s, controlTimeout, full, true, start);
    hide StartSearching, Disconnect, CleanupChannels, CleanupAasdk;
    var forgotten := ForgetSearch(s.(deviceGone := false));
    CleanedUp(cfg, forgotten);
    CleanupKeepsSearch(cfg, forgotten);
  }

  lemma CleanupKeepsSearch(cfg: Config, s: Service)
    ensures CleanupChannels(cfg, s).search == s.search && CleanupAasdk(cfg, s).search == s.search
  {
    hide ResetProjection;
    ResetFrame(cfg, s.(teardown := true, pipeline := false, control := false, handler := false), false);
  }

  /** A plain restart gives the connection up and searches. */
  lemma RestartSearches(cfg: Config, s: Service, start: WirelessStart)
    ensures s.initialised && CanRestart(s.conn) ==>
              StartSearching(cfg, Disconnect(cfg, s.(deviceGone := false)), start).conn == SearchLeadsTo(cfg, start)
  {
    hide StartSearching, Disconnect;
    var fired := s.(deviceGone := false);
    DisconnectFrame(cfg, fired);
    DisconnectElsewhere(cfg, fired);
    if s.conn == Connected {
      LeavesConnected(cfg, fired);
    } else if s.conn == Connecting {
      GiveUpConnecting(cfg, fired);
    }
    StartSearchingObserved(cfg, Disconnect(cfg, fired), start);
  }

  lemma FailedSetup(cfg: Config, s: Service)
    ensures TransitionTo(cfg, SetupAasdk(s, false), Failed).conn == Failed
  {
    hide TransitionTo;
    TransitionFrame(cfg, SetupAasdk(s, false), Failed);
  }

  lemma SetupIs(s: Service, ok: bool)
    ensures var t := SetupAasdk(s, ok); t == s.(teardown := false, stack := t.stack) && (t.stack <==> s.stack || ok)
  {
  }

  lemma RecoveryReinitObserved(cfg: Config, s: Service, full: bool, ok: bool, start: WirelessStart)
    requires Reachable(cfg, s)
    ensures var t := OnRecoveryReinit(cfg, s, full, ok, start);
            && (s.conn == Searching ==> t == s)
            && (s.conn != Searching && full && !ok ==> t.conn == Failed && NoSession(t.sess))
            && (s.initialised && s.conn == Disconnected && (full ==> ok) ==> t.conn == SearchLeadsTo(cfg, start))
            && (s.conn != Searching && full && ok ==> t.stack && !t.teardown)
  {
    SetupIs(s, true);
    hide Reachable, TransitionTo, StartSearching, SetupAasdk, NoSession;
    StartSearchingObserved(cfg, SetupAasdk(s, true), start);
    SearchKeepsStack(cfg, SetupAasdk(s, true), start);
    StartSearchingObserved(cfg, s, start);
    FailedSetup(cfg, s);
    StepIsReachable(cfg, s, Fired(RecoveryReinit(full, ok, start)));
    ReachableFits(cfg, OnRecoveryReinit(cfg, s, full, ok, start));
  }

  lemma IdleDisconnectObserved(cfg: Config, s: Service)
    requires Reachable(cfg, s)
    ensures var t := OnIdleDisconnect(cfg, s);
            && (s.conn == Connected ==> t.conn == Disconnected && t.deviceGone && NoSession(t.sess))
            && (s.conn != Connected ==> t == s)
  {
    hide Reachable, Disconnect, NoSession;
    StepIsReachable(cfg, s, Fired(IdleRecoveryDisconnect));
    ReachableFits(cfg, OnIdleDisconnect(cfg, s));
    DisconnectFrame(cfg, s.(deviceGone := true));
    if s.conn == Connected {
      LeavesConnected(cfg, s.(deviceGone := true));
    }
  }

  lemma LeavesConnected(cfg: Config, s: Service)
    requires s.conn == Connected
    ensures Disconnect(cfg, s).conn == Disconnected
  {
    hide TransitionTo, ResetProjection;
    TransitionFrame(cfg, s, Disconnecting);
    ResetFrame(cfg, TransitionTo(cfg, s, Disconnecting), false);
    TransitionFrame(cfg, ResetProjection(cfg, TransitionTo(cfg, s, Disconnecting), false), Disconnected);
  }

  lemma IdleTeardownObserved(cfg: Config, s: Service)
    ensures var t := OnIdleTeardown(cfg, s);
            && t.conn == s.conn
            && (s.conn == Disconnected ==>
                  && !t.stack && !t.control && !t.pipeline && t.teardown && t.sess == s.sess
                  && t.ver.attempts == 0 && t.ver.first == 0)
            && (s.conn != Disconnected ==> t == s.(deviceGone := false))
  {
    hide CleanupAasdk;
    CleanedUp(cfg, ForgetSearch(s));
  }

  lemma IdleReinitObserved(cfg: Config, s: Service, ok: bool, start: WirelessStart)
    requires Reachable(cfg, s)
    ensures var t := OnIdleReinit(cfg, s, ok, start);
            && !t.deviceGone
            && (s.conn == Searching ==> t.conn == Searching)
            && (s.conn != Searching && !ok ==> t.conn == Failed && NoSession(t.sess))
            && (s.initialised && s.conn == Disconnected && ok ==> t.conn == SearchLeadsTo(cfg, start))
            && (s.conn != Searching && ok ==> t.stack && !t.teardown)
  {
    SetupIs(s, true);
    hide Reachable, TransitionTo, StartSearching, SetupAasdk, NoSession;
    StartSearchingObserved(cfg, SetupAasdk(s, true), start);
    SearchKeepsStack(cfg, SetupAasdk(s, true), start);
    FailedSetup(cfg, s);
    StepIsReachable(cfg, s, Fired(IdleRecoveryReinit(ok, start)));
    ReachableFits(cfg, OnIdleReinit(cfg, s, ok, start));
  }

  lemma HubPromiseObserved(cfg: Config, s: Service, p: HubPromise, outcome: HubResult)
    requires Reachable(cfg, s) && p in s.search.promises
    ensures var t := SettleHub(cfg, s, p, outcome);
            if Connects(s, HubSettled(p, outcome)) then
              t.conn == Connected && t.sess.state == Active && t.sess.current.Some?
            else t == s.(search := s.search.(promises := s.search.promises - {p}))
  {
    hide Reachable, Attach;
    HubPromiseConnectsIff(cfg, s, p, outcome);
  }

  // ----- announcements -----

  /** The callbacks that reach a milestone, or lose one, and announce the status. */
  predicate Announces(s: Service, callback: Callback) {
    match callback
    case DiscoveryRequest => s.control
    case VideoOpened => true
    case VideoSetup => true
    case VideoStarted => true
    case VideoStopped => true
    case MediaStarted => true
    case MediaStopped => true
    case _ => false
  }

  predicate Reached(callback: Callback, proj: Projection) {
    match callback
    case DiscoveryRequest => proj.discovery
    case VideoOpened => proj.channelOpen
    case VideoSetup => proj.configured
    case VideoStarted => proj.started
    case VideoStopped => !proj.started && !proj.frame
    case MediaStarted => proj.audioStarted
    case MediaStopped => !proj.audioStarted
    case _ => true
  }

  lemma CallbackPublishes(cfg: Config, s: Service, callback: Callback) returns (before: Service)
    requires Announces(s, callback)
    ensures OnCallback(cfg, s, callback) == Publish(cfg, before) && Reached(callback, before.proj)
  {
    hide Publish, StopAwaiting;
    match callback {
      case DiscoveryRequest =>
        before := s.(hs := StopAwaiting(s.hs), proj := AddNote(s.proj.(discovery := true), DiscoveryNote));
      case VideoOpened => before := s.(proj := AddNote(s.proj.(channelOpen := true), OpenedNote));
      case VideoSetup => before := s.(proj := AddNote(s.proj.(configured := true), ConfiguredNote));
      case VideoStarted => before := s.(proj := AddNote(s.proj.(started := true), StartedNote));
      case VideoStopped => before := s.(proj := AddNote(s.proj.(started := false, frame := false), StoppedNote));
      case MediaStarted => before := s.(proj := s.proj.(audioStarted := true));
      case MediaStopped => before := s.(proj := s.proj.(audioStarted := false));
    }
  }

  lemma PublishKeepsFlags(cfg: Config, s: Service)
    ensures Publish(cfg, s).proj == s.proj.(notes := Publish(cfg, s).proj.notes)
  {
    hide Ready;
  }

  lemma CallbackAnnounces(cfg: Config, s: Service, callback: Callback)
    requires Reachable(cfg, s) && Announces(s, callback)
    ensures var t := OnCallback(cfg, s, callback);
            Announced(cfg, t) && Reached(callback, t.proj)
  {
    hide Reachable, Announced, OnCallback, Publish, Announces;
    StepIsReachable(cfg, s, CalledBack(callback));
    var before := CallbackPublishes(cfg, s, callback);
    PublishAnnounces(cfg, before);
    PublishKeepsFlags(cfg, before);
  }

  lemma MilestoneObserved(cfg: Config, s: Service, callback: Callback)
    requires Reachable(cfg, s) && Announces(s, callback)
    ensures var t := OnCallback(cfg, s, callback);
            Reachable(cfg, t) && Announced(cfg, t) && Reached(callback, t.proj)
  {
    hide Reachable, Announced, OnCallback, Announces;
    StepIsReachable(cfg, s, CalledBack(callback));
    CallbackAnnounces(cfg, s, callback);
  }

  lemma DiscoveryObserved(cfg: Config, s: Service)
    requires Reachable(cfg, s) && s.control
    ensures var t := OnDiscoveryRequest(cfg, s);
            Reachable(cfg, t) && Announced(cfg, t) && t.proj.discovery
  {
    hide Reachable, Announced;
    MilestoneObserved(cfg, s, DiscoveryRequest);
  }

  lemma VideoOpenedObserved(cfg: Config, s: Service)
    requires Reachable(cfg, s)
    ensures var t := OnVideoOpened(cfg, s);
            Reachable(cfg, t) && Announced(cfg, t) && t.proj.channelOpen
  {
    hide Reachable, Announced;
    MilestoneObserved(cfg, s, VideoOpened);
  }

  lemma VideoSetupObserved(cfg: Config, s: Service)
    requires Reachable(cfg, s)
    ensures var t := OnVideoSetup(cfg, s);
            Reachable(cfg, t) && Announced(cfg, t) && t.proj.configured
  {
    hide Reachable, Announced;
    MilestoneObserved(cfg, s, VideoSetup);
  }

  lemma VideoStartedObserved(cfg: Config, s: Service)
    requires Reachable(cfg, s)
    ensures var t := OnVideoStarted(cfg, s);
            Reachable(cfg, t) && Announced(cfg, t) && t.proj.started
  {
    hide Reachable, Announced;
    MilestoneObserved(cfg, s, VideoStarted);
  }

  lemma VideoStoppedObserved(cfg: Config, s: Service)
    requires Reachable(cfg, s)
    ensures var t := OnVideoStopped(cfg, s);
            Reachable(cfg, t) && Announced(cfg, t) && !t.proj.started && !t.proj.frame
  {
    hide Reachable, Announced;
    MilestoneObserved(cfg, s, VideoStopped);
  }

  lemma MediaAudioObserved(cfg: Config, s: Service, started: bool)
    requires Reachable(cfg, s)
    ensures var t := OnMediaAudio(cfg, s, started);
            Reachable(cfg, t) && Announced(cfg, t) && t.proj.audioStarted == started
  {
    hide Reachable, Announced;
    MilestoneObserved(cfg, s, if started then MediaStarted else MediaStopped);
  }

  /** A frame counts as the mode demands, and is announced unless it is passed through. */
  lemma VideoFrameObserved(cfg: Config, s: Service, data: seq<byte>)
    requires Reachable(cfg, s)
    ensures var t := OnVideoFrame(cfg, s, data);
            && Reachable(cfg, t)
            && (t.proj.frame <==> s.proj.frame || (cfg.videoEnabled && (cfg.h264 ==> H264.HasVcl(data))))
            && (t.proj.frame && !s.proj.frame && !cfg.h264 ==> Announced(cfg, t))
  {
    hide Reachable, Announced, Publish, H264.HasVcl;
    StepIsReachable(cfg, s, CalledBack(VideoFrame(data)));
    var framed := s.(proj := AddNote(s.proj.(frame := true), FrameNote(data)));
    PublishKeepsFlags(cfg, framed);
    if cfg.videoEnabled && !s.proj.frame && !cfg.h264 {
      PublishAnnounces(cfg, framed);
    }
  }

  lemma HeartbeatObserved(cfg: Config, s: Service)
    requires Reachable(cfg, s)
    ensures s.sess.heartbeat ==>
              s.sess.current.Some? && OnHeartbeat(s) == s.(sess := Log(s.sess, Beat(s.sess.current.value)))
    ensures !s.sess.heartbeat ==> OnHeartbeat(s) == s
  {
    hide Reachable;
    SessionLifecycleHolds(cfg, s);
  }

  lemma HubStartObserved(cfg: Config, s: Service)
    requires s.search.startupTimers > 0
    ensures var t := StartupTimer(cfg, s);
            && t.conn == (if s.conn == Searching && !s.stack then Disconnected else s.conn)
            && (s.conn == Searching && s.stack ==>
                  && t.search.hubStarted && t.search.generation == s.search.generation
                  && t.search.promises == s.search.promises +
                       if s.search.hubStarted then {} else {HubPromise(s.search.generation, s.search.issued)})
            && (s.conn != Searching ==> t == s.(search := s.search.(startupTimers := s.search.startupTimers - 1)))
  {
    hide TransitionTo;
    TransitionFrame(cfg, s.(search := s.search.(startupTimers := s.search.startupTimers - 1)), Disconnected);
  }
}
