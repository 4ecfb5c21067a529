/** Every step keeps the invariant, so every reachable state satisfies it. */
module ServiceProofs {
  import opened ErrorText
  import opened ServiceState
  import opened Wrappers
  import opened ServiceSteps
  import opened ServiceInvariants
  import opened SessionLifecycle
  import opened ComponentSteps

  // ----- elementary operations -----

  lemma PublishOk(cfg: Config, s: Service)
    requires Inv(cfg, s)
    ensures Inv(cfg, Publish(cfg, s))
  {
    hide SessionOk, HandshakeOk, RequestsOk, SearchOk, GraceOk, ProjectionOk;
    PublishNoteOk(cfg, s.conn, s.proj);
  }

  lemma ResetOk(cfg: Config, s: Service, established: bool)
    requires Inv(cfg, s)
    ensures Inv(cfg, ResetProjection(cfg, s, established))
    ensures established ==> EverEstablished(ResetProjection(cfg, s, established).proj.notes)
  {
    hide SessionOk, HandshakeOk, RequestsOk, SearchOk, ProjectionOk, ClearFlags, Outdate;
    ClearFlagsOk(cfg, s.conn, s.proj, established);
    OutdateOk(s.hs);
    PublishNoteOk(cfg, s.conn, ClearFlags(s.proj, established));
  }

  /** The search only cares about entering SEARCHING. */
  lemma SearchConnOk(cfg: Config, conn: ConnectionState, search: Search, next: ConnectionState)
    requires SearchOk(cfg, conn, search) && next != Searching
    ensures SearchOk(cfg, next, search)
  {
  }

  lemma ProjectionConnOk(cfg: Config, conn: ConnectionState, proj: Projection, next: ConnectionState)
    requires ProjectionOk(cfg, conn, proj) && (next == Connected ==> EverEstablished(proj.notes))
    ensures ProjectionOk(cfg, next, proj)
  {
  }

  /** Every transition except into CONNECTED or SEARCHING. */
  lemma TransitionOk(cfg: Config, s: Service, next: ConnectionState)
    requires Inv(cfg, s) && next != Connected && next != Searching
    ensures Inv(cfg, TransitionTo(cfg, s, next))
    ensures next == Connecting && s.conn == Disconnected ==> TransitionTo(cfg, s, next).sess.current.None?
  {
    hide SessionOk, HandshakeOk, RequestsOk, SearchOk, GraceOk, ProjectionOk, FollowConnection;
    if s.conn != next {
      FollowOk(s.conn, s.sess, next);
      SearchConnOk(cfg, s.conn, s.search, next);
      ProjectionConnOk(cfg, s.conn, s.proj, next);
      PublishNoteOk(cfg, next, s.proj);
    }
  }

  lemma CleanupOk(cfg: Config, s: Service)
    requires Inv(cfg, s)
    ensures Inv(cfg, CleanupChannels(cfg, s)) && Inv(cfg, CleanupAasdk(cfg, s))
    ensures CleanupChannels(cfg, s).conn == s.conn == CleanupAasdk(cfg, s).conn
  {
    hide SessionOk, RestOk, ResetProjection;
    SideFlagsOk(cfg, s, s.(teardown := true, pipeline := false, control := false, handler := false));
    var torn := s.(teardown := true, pipeline := false, control := false, handler := false);
    ResetOk(cfg, torn, false);
    ResetFrame(cfg, torn, false);
    SideFlagsOk(cfg, CleanupChannels(cfg, s), CleanupAasdk(cfg, s));
  }

  /** Fields outside the components do not matter. */
  lemma SideFlagsOk(cfg: Config, s: Service, t: Service)
    requires Inv(cfg, s)
    requires t.now == s.now && t.conn == s.conn && t.sess == s.sess && t.proj == s.proj && t.hs == s.hs
    requires t.ver == s.ver && t.search == s.search && t.grace == s.grace
    ensures Inv(cfg, t)
  {
    hide SessionOk, HandshakeOk, RequestsOk, SearchOk, GraceOk, ProjectionOk;
  }

  /** What a projection reset leaves alone. */
  lemma ResetFrame(cfg: Config, s: Service, established: bool)
    ensures var t := ResetProjection(cfg, s, established);
            t == s.(proj := t.proj, hs := t.hs, grace := t.grace)
  {
    hide Ready, ClearFlags, Outdate;
  }

  lemma TransitionFrame(cfg: Config, s: Service, next: ConnectionState)
    ensures var t := TransitionTo(cfg, s, next);
            t == s.(conn := next, proj := t.proj, sess := t.sess)
  {
    hide FollowConnection, Ready;
  }

  lemma StartRequestsFrame(cfg: Config, s: Service, delay: nat)
    ensures var t := StartRequests(cfg, s, delay);
            t == s.(handler := t.handler, hs := t.hs, ver := t.ver)
  {
    hide SendVersionRequest;
    if s.control && !s.handler {
      FirstSendFrame(cfg, NewHandler(s), s.ver.chains);
    }
  }

  /** The first request of a window is never too late. */
  lemma FirstSendFrame(cfg: Config, s: Service, chain: nat)
    requires s.ver.first == 0
    ensures var t := SendVersionRequest(cfg, s, chain); t == s.(ver := t.ver)
  {
    hide ControlError, VersionTimeoutText;
  }

  lemma DisconnectOk(cfg: Config, s: Service)
    requires Inv(cfg, s)
    ensures Inv(cfg, Disconnect(cfg, s)) && Inv(cfg, DisconnectIfConnected(cfg, s))
    ensures Disconnect(cfg, s).conn == if s.conn == Connected || s.conn == Connecting then Disconnected else s.conn
    ensures Disconnect(cfg, s).search == s.search && Disconnect(cfg, s).ver == s.ver
  {
    hide Inv, TransitionTo, ResetProjection;
    if s.conn == Connected || s.conn == Connecting {
      var leaving := TransitionTo(cfg, s, Disconnecting);
      TransitionOk(cfg, s, Disconnecting);
      TransitionFrame(cfg, s, Disconnecting);
      ResetOk(cfg, leaving, false);
      ResetFrame(cfg, leaving, false);
      TransitionOk(cfg, ResetProjection(cfg, leaving, false), Disconnected);
      TransitionFrame(cfg, ResetProjection(cfg, leaving, false), Disconnected);
    }
  }

  lemma ConnectionLostOk(cfg: Config, s: Service)
    requires Inv(cfg, s)
    ensures Inv(cfg, ConnectionLost(cfg, s))
  {
    hide Inv, DisconnectIfConnected, ResetProjection;
    ResetOk(cfg, s, false);
    DisconnectOk(cfg, ResetProjection(cfg, s, false));
  }

  // ----- error handling -----

  /** Replacing one component by one that is in order. */
  lemma RequestsChangeOk(cfg: Config, s: Service, ver: Requests)
    requires Inv(cfg, s) && RequestsOk(cfg, s.now, ver)
    ensures Inv(cfg, s.(ver := ver))
  {
    hide SessionOk, HandshakeOk, RequestsOk, SearchOk, GraceOk, ProjectionOk;
  }

  lemma HandshakeChangeOk(cfg: Config, s: Service, hs: Handshake)
    requires Inv(cfg, s) && HandshakeOk(hs)
    ensures Inv(cfg, s.(hs := hs))
  {
    hide SessionOk, HandshakeOk, RequestsOk, SearchOk, GraceOk, ProjectionOk;
  }

  lemma GraceChangeOk(cfg: Config, s: Service, grace: Grace)
    requires Inv(cfg, s) && GraceOk(cfg, s.now, grace)
    ensures Inv(cfg, s.(grace := grace))
  {
    hide SessionOk, HandshakeOk, RequestsOk, SearchOk, GraceOk, ProjectionOk;
  }

  lemma ProjectionChangeOk(cfg: Config, s: Service, proj: Projection)
    requires Inv(cfg, s) && ProjectionOk(cfg, s.conn, proj)
    ensures Inv(cfg, s.(proj := proj))
  {
    hide SessionOk, HandshakeOk, RequestsOk, SearchOk, GraceOk, ProjectionOk;
  }

  lemma SearchChangeOk(cfg: Config, s: Service, search: Search)
    requires Inv(cfg, s) && SearchOk(cfg, s.conn, search)
    ensures Inv(cfg, s.(search := search))
  {
    hide SessionOk, HandshakeOk, RequestsOk, SearchOk, GraceOk, ProjectionOk;
  }

  lemma Parts(cfg: Config, s: Service)
    requires Inv(cfg, s)
    ensures SessionOk(s.conn, s.sess) && ProjectionOk(cfg, s.conn, s.proj) && HandshakeOk(s.hs)
    ensures RequestsOk(cfg, s.now, s.ver) && SearchOk(cfg, s.conn, s.search) && GraceOk(cfg, s.now, s.grace)
    ensures s.now > 0
  {
  }

  /** hubStarted may be cleared ahead of leaving SEARCHING. */
  function HubStopped(s: Service): Service {
    s.(search := s.search.(hubStarted := false))
  }

  lemma HubStoppedCommutes(cfg: Config, s: Service)
    ensures forall next :: TransitionTo(cfg, HubStopped(s), next) == HubStopped(TransitionTo(cfg, s, next))
    ensures forall e :: ResetProjection(cfg, HubStopped(s), e) == HubStopped(ResetProjection(cfg, s, e))
  {
    hide FollowConnection, Ready;
  }

  lemma HubStoppedOk(cfg: Config, s: Service)
    requires Inv(cfg, s) && s.conn != Searching
    ensures Inv(cfg, HubStopped(s))
  {
    hide SessionOk, HandshakeOk, RequestsOk, GraceOk, ProjectionOk;
  }

  lemma DisconnectCommutes(cfg: Config, s: Service)
    ensures Disconnect(cfg, HubStopped(s)) == HubStopped(Disconnect(cfg, s))
    ensures CleanupChannels(cfg, HubStopped(s)) == HubStopped(CleanupChannels(cfg, s))
  {
    hide TransitionTo, ResetProjection;
    HubStoppedCommutes(cfg, s);
    var leaving := TransitionTo(cfg, s, Disconnecting);
    HubStoppedCommutes(cfg, leaving);
    HubStoppedCommutes(cfg, ResetProjection(cfg, leaving, false));
    var torn := s.(teardown := true, pipeline := false, control := false, handler := false);
    HubStoppedCommutes(cfg, torn);
    assert HubStopped(s).(teardown := true, pipeline := false, control := false, handler := false) == HubStopped(torn);
  }

  lemma StopSearchingOk(cfg: Config, s: Service)
    requires Inv(cfg, s)
    ensures Inv(cfg, StopSearching(cfg, s))
    ensures StopSearching(cfg, s).conn == if s.conn == Searching then Disconnected else s.conn
  {
    hide Inv, TransitionTo, ResetProjection;
    if s.conn == Searching {
      var reset := ResetProjection(cfg, s, false);
      ResetOk(cfg, s, false);
      TransitionOk(cfg, reset, Disconnected);
      TransitionFrame(cfg, reset, Disconnected);
      HubStoppedOk(cfg, TransitionTo(cfg, reset, Disconnected));
      HubStoppedCommutes(cfg, s);
      HubStoppedCommutes(cfg, reset);
    }
  }

  lemma ImmediateRecoveryOk(cfg: Config, s: Service)
    requires Inv(cfg, s)
    ensures Inv(cfg, ImmediateRecovery(cfg, s))
  {
    hide Inv, TransitionTo, Disconnect, CleanupChannels, ResetRequests;
    if !s.deviceGone {
      Parts(cfg, s);
      ResetRequestsOk(cfg, s.now, s.ver);
      RequestsChangeOk(cfg, s, ResetRequests(s.ver));
      var scheduled := s.(ver := ResetRequests(s.ver)).(deviceGone := true);
      SideFlagsOk(cfg, s.(ver := ResetRequests(s.ver)), scheduled);
      var idle := Disconnect(cfg, scheduled);
      DisconnectOk(cfg, scheduled);
      var clean := CleanupChannels(cfg, idle);
      CleanupOk(cfg, idle);
      TransitionOk(cfg, clean, Disconnected);
      TransitionFrame(cfg, clean, Disconnected);
      HubStoppedOk(cfg, TransitionTo(cfg, clean, Disconnected));
      DisconnectCommutes(cfg, scheduled);
      DisconnectCommutes(cfg, idle);
      HubStoppedCommutes(cfg, clean);
      assert HubStopped(scheduled) ==
        s.(deviceGone := true, search := s.search.(hubStarted := false), ver := ResetRequests(s.ver));
    }
  }

  lemma ForgiveOk(cfg: Config, s: Service, source: Source)
    requires Inv(cfg, s)
    ensures Inv(cfg, Forgive(s, source))
  {
    hide Inv, ForgetErrors;
    Parts(cfg, s);
    ForgetErrorsOk(cfg, s.now, s.grace);
    GraceChangeOk(cfg, s, ForgetErrors(s.grace));
  }

  lemma NoteErrorOk(cfg: Config, s: Service, source: Source)
    requires Inv(cfg, s)
    ensures Inv(cfg, NoteError(cfg, s, source))
  {
    hide Inv, Publish, Forgive, StopStream;
    ForgiveOk(cfg, s, source);
    var forgiven := Forgive(s, source);
    Parts(cfg, forgiven);
    StopStreamOk(cfg, forgiven.conn, forgiven.proj, source);
    ProjectionChangeOk(cfg, forgiven, StopStream(forgiven.proj, source));
    PublishOk(cfg, forgiven.(proj := StopStream(forgiven.proj, source)));
  }

  lemma NoDeviceOk(cfg: Config, now: nat, grace: Grace, count: nat)
    requires GraceOk(cfg, now, grace)
    ensures GraceOk(cfg, now, grace.(noDevice := count))
  {
  }

  lemma RecoverOk(cfg: Config, s: Service, cls: ErrorClass)
    requires Inv(cfg, s)
    ensures Inv(cfg, Recover(cfg, s, cls))
  {
    hide Inv, ImmediateRecovery, Disconnect;
    Parts(cfg, s);
    NoDeviceOk(cfg, s.now, s.grace, s.grace.noDevice + 1);
    GraceChangeOk(cfg, s, s.grace.(noDevice := s.grace.noDevice + 1));
    ImmediateRecoveryOk(cfg, s);
    SideFlagsOk(cfg, s, s.(deviceGone := true));
    DisconnectOk(cfg, s.(deviceGone := true));
  }

  lemma HandleErrorOk(cfg: Config, s: Service, source: Source, cls: ErrorClass)
    requires Inv(cfg, s)
    ensures Inv(cfg, HandleError(cfg, s, source, cls))
  {
    hide Inv, NoteError, Recover;
    NoteErrorOk(cfg, s, source);
    RecoverOk(cfg, NoteError(cfg, s, source), cls);
  }

  lemma ChannelErrorOk(cfg: Config, s: Service, source: Source, cls: ErrorClass)
    requires Inv(cfg, s)
    ensures Inv(cfg, ChannelError(cfg, s, source, cls))
  {
    hide Inv, HandleError, Outdate, CountError, RecordGrace;
    Parts(cfg, s);
    if source == Control {
      OutdateOk(s.hs);
      HandshakeChangeOk(cfg, s, Outdate(s.hs));
      HandleErrorOk(cfg, s.(hs := Outdate(s.hs)), source, cls);
    } else {
      CountErrorOk(cfg, s.now, s.grace);
      var counted := s.(grace := CountError(cfg, s.grace, s.now));
      GraceChangeOk(cfg, s, counted.grace);
      if counted.grace.errors > cfg.graceMaxErrors {
        var escalated := counted.(grace := RecordGrace(counted.grace, Escalated(s.now)));
        GraceChangeOk(cfg, counted, escalated.grace);
        HandleErrorOk(cfg, escalated, source, cls);
      }
      HandleErrorOk(cfg, s, source, cls);
    }
  }

  lemma HandlerErrorOk(cfg: Config, s: Service, fault: Option<string>)
    requires Inv(cfg, s)
    ensures Inv(cfg, HandlerError(cfg, s, fault))
  {
    hide Inv, ChannelError, Classify;
    match fault {
      case None =>
      case Some(text) => ChannelErrorOk(cfg, s, Control, Classify(true, text));
    }
  }

  lemma ControlErrorOk(cfg: Config, s: Service, text: string)
    requires Inv(cfg, s)
    ensures Inv(cfg, ControlError(cfg, s, text))
  {
    hide Inv, ChannelError, Classify;
    ChannelErrorOk(cfg, s, Control, Classify(true, text));
  }
}
