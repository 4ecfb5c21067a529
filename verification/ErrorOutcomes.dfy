/** What a channel error leads to: nothing, a note, or the end of the connection. */
module ErrorOutcomes {
  import opened ErrorText
  import opened ServiceState
  import opened ServiceSteps
  import opened ServiceInvariants
  import ComponentSteps
  import opened ServiceProofs
  import opened ServiceTheorems
  import opened Announcements
  import opened Observations

  /** The non-control errors counted so far in the window that one arriving now falls into. */
  function ErrorsSoFar(cfg: Config, s: Service): nat {
    if s.grace.start == 0 || s.now > s.grace.start + cfg.graceWindowMs then 0 else s.grace.errors
  }

  /** The three early returns: teardown, the grace window before the handshake, a re-armed receive. */
  predicate Absorbed(cfg: Config, s: Service, source: Source, cls: ErrorClass) {
    || s.teardown
    || (source != Control && s.conn == Connected && !s.proj.version && !s.proj.discovery
        && ErrorsSoFar(cfg, s) < cfg.graceMaxErrors)
    || (s.conn == Connected && cls.recoverable)
  }

  /** After discovery, with neither stream running once the error has stopped its own. */
  predicate BeforeStart(s: Service, source: Source) {
    && s.proj.discovery
    && (source == Video || !s.proj.started) && (source == MediaAudio || !s.proj.audioStarted)
  }

  /** A no-device error that is waited out. */
  predicate Tolerated(cfg: Config, s: Service, source: Source, cls: ErrorClass) {
    && cls.noDevice && BeforeStart(s, source)
    && s.grace.noDevice < cfg.noDeviceGraceMax && !s.deviceGone
  }

  /** The error ends the connection, in order to recover. */
  predicate Fatal(cfg: Config, s: Service, source: Source, cls: ErrorClass) {
    !Absorbed(cfg, s, source, cls) && !Tolerated(cfg, s, source, cls) && Recovering(cls) && !s.deviceGone
  }

  /** The connection of s has been ended: a recovery is under way, the service is disconnected, and
      its session is over. */
  ghost predicate Broken(s: Service, t: Service) {
    && t.deviceGone
    && (s.conn == Connected ==> t.conn == Disconnected && SessionOver(s.sess, t.sess))
    && (s.conn == Connecting ==> t.conn == Disconnected)
  }

  /** Besides: the channels and their request counters are gone. */
  predicate TornDown(t: Service) {
    && t.conn == Disconnected && !t.control && !t.handler && !t.pipeline && t.teardown
    && t.ver.attempts == 0 && t.ver.first == 0
  }

  /** The connection goes on. */
  predicate Unbroken(s: Service, t: Service) {
    && t.conn == s.conn && t.sess == s.sess && t.deviceGone == s.deviceGone && t.teardown == s.teardown
    && t.control == s.control && t.handler == s.handler && t.pipeline == s.pipeline
    && t.ver == s.ver && t.search == s.search
  }

  /** What every error that is not absorbed leaves noted. */
  predicate Noticed(cfg: Config, s: Service, t: Service, source: Source) {
    && Told(cfg, t)
    && (source == Video ==> !t.proj.started && (cfg.videoEnabled ==> !Ready(cfg, t.conn, t.proj)))
    && (source == MediaAudio ==> !t.proj.audioStarted)
    && (source == Control || s.proj.version || s.proj.discovery ==> t.grace.errors == 0 && t.grace.start == 0)
  }

  /** The wait for the handshake is over, its retries are forgotten, and its timers are out of date. */
  predicate WaitOver(s: Service, t: Service) {
    !t.hs.awaiting && t.hs.retries == 0 && t.hs.epoch > s.hs.epoch
  }

  ghost predicate ErrorOutcome(cfg: Config, s: Service, t: Service, source: Source, cls: ErrorClass) {
    && (Fatal(cfg, s, source, cls) ==> Broken(s, t) && (cls.sslNoDevice ==> TornDown(t)))
    && (!Fatal(cfg, s, source, cls) ==> Unbroken(s, t))
    && (!Absorbed(cfg, s, source, cls) ==> Noticed(cfg, s, t, source))
    && (source == Control && !s.teardown ==> WaitOver(s, t))
    && (!Absorbed(cfg, s, source, cls) && Tolerated(cfg, s, source, cls) ==> t.grace.noDevice == s.grace.noDevice + 1)
  }

  // ----- ending a connection -----

  lemma InvFits(cfg: Config, s: Service)
    requires Inv(cfg, s)
    ensures s.conn == Disconnected ==> NoSession(s.sess)
    ensures s.conn == Connected ==> s.sess.state == Active && s.sess.current.Some? && StoreOk(s.sess)
  {
    Parts(cfg, s);
    if s.conn == Disconnected {
      forall id: nat ensures !Open(s.sess.log, id) {
        assert RowOk(s.sess, id);
      }
    }
    hide Inv, RestOk;
  }

  lemma DisconnectBreaks(cfg: Config, s: Service)
    requires Inv(cfg, s) && s.deviceGone
    ensures Broken(s, Disconnect(cfg, s))
    ensures s.conn == Connected || s.conn == Connecting ==> Disconnect(cfg, s).conn == Disconnected
  {
    hide Inv, Disconnect, StoreOk, EnterSession, NoSession;
    DisconnectOk(cfg, s);
    DisconnectFrame(cfg, s);
    InvFits(cfg, s);
    InvFits(cfg, Disconnect(cfg, s));
    if s.conn == Connected {
      SessionOfDisconnect(cfg, s);
      EndingEndsRow(s.sess);
    }
  }

  lemma ScheduledOk(cfg: Config, s: Service)
    requires Inv(cfg, s)
    ensures Inv(cfg, s.(deviceGone := true, ver := ResetRequests(s.ver)))
  {
    hide Inv, ResetRequests;
    Parts(cfg, s);
    ComponentSteps.ResetRequestsOk(cfg, s.now, s.ver);
    RequestsChangeOk(cfg, s, ResetRequests(s.ver));
    var forgotten := s.(ver := ResetRequests(s.ver));
    SideFlagsOk(cfg, forgotten, forgotten.(deviceGone := true));
  }

  lemma CleanupKeeps(cfg: Config, s: Service)
    ensures var t := CleanupChannels(cfg, s);
            && t.sess == s.sess && t.conn == s.conn && t.ver == s.ver && t.deviceGone == s.deviceGone
            && !t.control && !t.handler && !t.pipeline && t.teardown
  {
    hide ResetProjection;
    ResetFrame(cfg, s.(teardown := true, pipeline := false, control := false, handler := false), false);
  }

  lemma RecoveryTearsDown(cfg: Config, s: Service)
    requires !s.deviceGone
    ensures var t := ImmediateRecovery(cfg, s);
            TornDown(t) && t.deviceGone
  {
    hide TransitionTo, CleanupChannels, Disconnect;
    var scheduled := ScheduleRecovery(s);
    var idle := Disconnect(cfg, scheduled);
    DisconnectFrame(cfg, scheduled);
    CleanupKeeps(cfg, idle);
    TransitionFrame(cfg, CleanupChannels(cfg, idle), Disconnected);
  }

  /** The session of a connected service ends inside disconnect. */
  lemma RecoverySession(cfg: Config, s: Service)
    requires !s.deviceGone && s.conn == Connected
    requires Disconnect(cfg, HubStopped(s.(deviceGone := true, ver := ResetRequests(s.ver)))).conn == Disconnected
    ensures ImmediateRecovery(cfg, s).sess ==
            Disconnect(cfg, HubStopped(s.(deviceGone := true, ver := ResetRequests(s.ver)))).sess
  {
    hide CleanupChannels, Disconnect, ResetRequests, FollowConnection, Ready;
    assert ScheduleRecovery(s) == HubStopped(s.(deviceGone := true, ver := ResetRequests(s.ver)));
    CleanupKeeps(cfg, Disconnect(cfg, ScheduleRecovery(s)));
  }

  lemma RecoveryBreaks(cfg: Config, s: Service)
    requires Inv(cfg, s) && !s.deviceGone
    ensures Broken(s, ImmediateRecovery(cfg, s)) && TornDown(ImmediateRecovery(cfg, s))
  {
    hide Inv, ImmediateRecovery, Disconnect, ResetRequests, SessionOver;
    RecoveryTearsDown(cfg, s);
    if s.conn == Connected {
      var scheduled := s.(deviceGone := true, ver := ResetRequests(s.ver));
      ScheduledOk(cfg, s);
      DisconnectBreaks(cfg, scheduled);
      DisconnectCommutes(cfg, scheduled);
      RecoverySession(cfg, s);
    }
  }

  // ----- the dispatch -----

  /** The test of the grace count, after the error has been noted. */
  predicate WaitedOut(cfg: Config, s: Service, cls: ErrorClass) {
    Graced(cfg, s, cls) && !s.deviceGone
  }

  lemma RecoverBreaks(cfg: Config, s: Service, cls: ErrorClass)
    requires Inv(cfg, s) && !WaitedOut(cfg, s, cls) && Recovering(cls) && !s.deviceGone
    ensures var t := Recover(cfg, s, cls);
            Broken(s, t) && (cls.sslNoDevice ==> TornDown(t))
  {
    hide Inv, ImmediateRecovery, Disconnect, SessionOver;
    if cls.sslNoDevice {
      RecoveryBreaks(cfg, s);
    } else {
      SideFlagsOk(cfg, s, s.(deviceGone := true));
      DisconnectBreaks(cfg, s.(deviceGone := true));
    }
  }

  lemma RecoverSpares(cfg: Config, s: Service, cls: ErrorClass)
    requires WaitedOut(cfg, s, cls) || !Recovering(cls) || s.deviceGone
    ensures var t := Recover(cfg, s, cls);
            t == s.(grace := t.grace) && t.grace == s.grace.(noDevice := t.grace.noDevice)
            && (WaitedOut(cfg, s, cls) ==> t.grace.noDevice == s.grace.noDevice + 1)
  {
    hide Disconnect;
  }

  /** What stays off, and what stays forgotten, through a reset and a transition. */
  predicate StaysOff(s: Service, t: Service) {
    && (!s.proj.started ==> !t.proj.started) && (!s.proj.audioStarted ==> !t.proj.audioStarted)
    && t.grace.errors == s.grace.errors && t.grace.start == s.grace.start
  }

  /** No handshake timeout is noted between s and t. */
  ghost predicate SameTimeouts(s: Service, t: Service) {
    forall r: nat :: TimeoutCount(t.hs.log, r) == TimeoutCount(s.hs.log, r)
  }

  lemma ResetKeepsOff(cfg: Config, s: Service, established: bool)
    ensures StaysOff(s, ResetProjection(cfg, s, established)) && StaysOff(s, CleanupChannels(cfg, s))
    ensures SameTimeouts(s, ResetProjection(cfg, s, established)) && SameTimeouts(s, CleanupChannels(cfg, s))
  {
    hide Ready;
  }

  lemma TransitionKeepsOff(cfg: Config, s: Service, next: ConnectionState)
    ensures StaysOff(s, TransitionTo(cfg, s, next)) && SameTimeouts(s, TransitionTo(cfg, s, next))
  {
    hide Ready, FollowConnection;
  }

  lemma DisconnectKeepsOff(cfg: Config, s: Service)
    ensures StaysOff(s, Disconnect(cfg, s)) && SameTimeouts(s, Disconnect(cfg, s))
  {
    hide TransitionTo, ResetProjection;
    var leaving := TransitionTo(cfg, s, Disconnecting);
    TransitionKeepsOff(cfg, s, Disconnecting);
    ResetKeepsOff(cfg, leaving, false);
    TransitionKeepsOff(cfg, ResetProjection(cfg, leaving, false), Disconnected);
  }

  lemma RecoverKeepsOff(cfg: Config, s: Service, cls: ErrorClass)
    ensures StaysOff(s, Recover(cfg, s, cls)) && SameTimeouts(s, Recover(cfg, s, cls))
  {
    hide TransitionTo, Disconnect, CleanupChannels;
    DisconnectKeepsOff(cfg, s.(deviceGone := true));
    DisconnectKeepsOff(cfg, ScheduleRecovery(s));
    var idle := Disconnect(cfg, ScheduleRecovery(s));
    ResetKeepsOff(cfg, idle, false);
    TransitionKeepsOff(cfg, CleanupChannels(cfg, idle), Disconnected);
  }

  lemma ForgivenIs(s: Service, source: Source)
    ensures var t := Forgive(s, source);
            && t == s.(grace := t.grace) && t.grace.noDevice == s.grace.noDevice
            && (source == Control || s.proj.version || s.proj.discovery ==> t.grace.errors == 0 && t.grace.start == 0)
  {
  }

  lemma StoppedIs(cfg: Config, s: Service, source: Source)
    ensures var t := Publish(cfg, s.(proj := StopStream(s.proj, source)));
            && t == s.(proj := t.proj) && t.proj.discovery == s.proj.discovery && t.proj.version == s.proj.version
            && t.proj.started == (s.proj.started && source != Video)
            && t.proj.audioStarted == (s.proj.audioStarted && source != MediaAudio)
  {
    hide Ready;
  }

  lemma NotedIs(cfg: Config, s: Service, source: Source)
    ensures var t := NoteError(cfg, s, source);
            && t == s.(proj := t.proj, grace := t.grace) && t.grace.noDevice == s.grace.noDevice
            && t.proj.discovery == s.proj.discovery && t.proj.version == s.proj.version
            && t.proj.started == (s.proj.started && source != Video)
            && t.proj.audioStarted == (s.proj.audioStarted && source != MediaAudio)
            && (source == Control || s.proj.version || s.proj.discovery ==> t.grace.errors == 0 && t.grace.start == 0)
  {
    hide Publish, Forgive, StopStream;
    ForgivenIs(s, source);
    StoppedIs(cfg, Forgive(s, source), source);
  }

  lemma NotedTells(cfg: Config, s: Service, source: Source)
    ensures Told(cfg, NoteError(cfg, s, source))
  {
    hide Publish, Forgive, StopStream, Told;
    var forgiven := Forgive(s, source);
    PublishTells(cfg, forgiven.(proj := StopStream(forgiven.proj, source)));
  }

  lemma NoticedIs(cfg: Config, s: Service, source: Source, cls: ErrorClass)
    ensures Noticed(cfg, s, Recover(cfg, NoteError(cfg, s, source), cls), source)
  {
    var noted := NoteError(cfg, s, source);
    NotedIs(cfg, s, source);
    NotedTells(cfg, s, source);
    RecoverTells(cfg, noted, cls);
    RecoverKeepsOff(cfg, noted, cls);
    hide NoteError, Recover;
  }

  lemma NotedTolerates(cfg: Config, s: Service, source: Source, cls: ErrorClass)
    ensures WaitedOut(cfg, NoteError(cfg, s, source), cls) == Tolerated(cfg, s, source, cls)
  {
    NotedIs(cfg, s, source);
    hide NoteError;
  }

  lemma HandledOutcome(cfg: Config, s: Service, source: Source, cls: ErrorClass)
    requires Inv(cfg, s) && !(s.conn == Connected && cls.recoverable)
    ensures var t := HandleError(cfg, s, source, cls);
            var ends := !Tolerated(cfg, s, source, cls) && Recovering(cls) && !s.deviceGone;
            && (ends ==> Broken(s, t) && (cls.sslNoDevice ==> TornDown(t)))
            && (!ends ==> Unbroken(s, t))
            && Noticed(cfg, s, t, source)
            && (Tolerated(cfg, s, source, cls) ==> t.grace.noDevice == s.grace.noDevice + 1)
  {
    hide Inv, NoteError, Recover, SessionOver, Recovering, TornDown, WaitedOut, Tolerated, Noticed;
    var noted := NoteError(cfg, s, source);
    NotedIs(cfg, s, source);
    NoteErrorOk(cfg, s, source);
    NotedTolerates(cfg, s, source, cls);
    NoticedIs(cfg, s, source, cls);
    if !Tolerated(cfg, s, source, cls) && Recovering(cls) && !s.deviceGone {
      RecoverBreaks(cfg, noted, cls);
    } else {
      RecoverSpares(cfg, noted, cls);
    }
  }

  /** The error is the one that exceeds the maximum, or is not subject to the grace window. */
  lemma GraceCount(cfg: Config, s: Service)
    ensures var t := CountPreHandshake(cfg, s);
            && t == s.(grace := t.grace) && t.grace.noDevice == s.grace.noDevice
            && t.grace.errors == ErrorsSoFar(cfg, s) + 1
    ensures var t := Escalate(CountPreHandshake(cfg, s));
            t == s.(grace := t.grace) && t.grace.noDevice == s.grace.noDevice
  {
  }

  lemma EscalatedOk(cfg: Config, s: Service)
    requires Inv(cfg, s) && CountPreHandshake(cfg, s).grace.errors > cfg.graceMaxErrors
    ensures Inv(cfg, Escalate(CountPreHandshake(cfg, s)))
  {
    hide Inv, CountError;
    Parts(cfg, s);
    ComponentSteps.CountErrorOk(cfg, s.now, s.grace);
    var counted := CountPreHandshake(cfg, s);
    GraceChangeOk(cfg, s, counted.grace);
    EscalationOk(cfg, s.now, counted.grace);
    GraceChangeOk(cfg, counted, Escalate(counted).grace);
  }

  lemma EscalationOk(cfg: Config, now: nat, grace: Grace)
    requires GraceOk(cfg, now, grace) && grace.errors > cfg.graceMaxErrors
    ensures GraceOk(cfg, now, RecordGrace(grace, Escalated(now)))
  {
  }

  /** s and its variant differ in nothing that decides about an error or that it may end. */
  lemma OutcomeFrom(cfg: Config, s: Service, variant: Service, source: Source, cls: ErrorClass)
    requires variant == s.(hs := variant.hs, grace := variant.grace) && variant.grace.noDevice == s.grace.noDevice
    requires Inv(cfg, variant) && !Absorbed(cfg, s, source, cls)
    ensures var t := HandleError(cfg, variant, source, cls);
            (source == Control ==> WaitOver(s, t)) ==> ErrorOutcome(cfg, s, t, source, cls)
  {
    hide WaitOver;
    hide Inv, HandleError, SessionOver, Told, Ready, Recovering;
    HandledOutcome(cfg, variant, source, cls);
  }

  /** A handshake that nobody waits for stays so through the dispatch. */
  predicate StaysOver(s: Service, t: Service) {
    !s.hs.awaiting && s.hs.retries == 0 ==> !t.hs.awaiting && t.hs.retries == 0 && t.hs.epoch >= s.hs.epoch
  }

  lemma ResetStaysOver(cfg: Config, s: Service, next: ConnectionState)
    ensures StaysOver(s, ResetProjection(cfg, s, false)) && StaysOver(s, CleanupChannels(cfg, s))
    ensures StaysOver(s, TransitionTo(cfg, s, next))
  {
    hide Ready, FollowConnection;
  }

  lemma DisconnectStaysOver(cfg: Config, s: Service)
    ensures StaysOver(s, Disconnect(cfg, s))
  {
    hide TransitionTo, ResetProjection;
    var leaving := TransitionTo(cfg, s, Disconnecting);
    ResetStaysOver(cfg, s, Disconnecting);
    ResetStaysOver(cfg, leaving, Disconnected);
    ResetStaysOver(cfg, ResetProjection(cfg, leaving, false), Disconnected);
  }

  lemma RecoverStaysOver(cfg: Config, s: Service, cls: ErrorClass)
    ensures StaysOver(s, Recover(cfg, s, cls))
  {
    hide TransitionTo, Disconnect, CleanupChannels, ResetRequests;
    DisconnectStaysOver(cfg, s.(deviceGone := true));
    var scheduled := ScheduleRecovery(s);
    DisconnectStaysOver(cfg, scheduled);
    ResetStaysOver(cfg, Disconnect(cfg, scheduled), Disconnected);
    ResetStaysOver(cfg, CleanupChannels(cfg, Disconnect(cfg, scheduled)), Disconnected);
  }

  lemma ControlErrorEndsWait(cfg: Config, s: Service, cls: ErrorClass)
    requires !s.teardown
    ensures WaitOver(s, ChannelError(cfg, s, Control, cls))
  {
    hide Recover, NoteError, Recovering;
    var waiting := OutdateWait(s);
    NotedIs(cfg, waiting, Control);
    RecoverStaysOver(cfg, NoteError(cfg, waiting, Control), cls);
  }

  /** Every error, in every state in which the invariant holds. */
  lemma OutcomeOfError(cfg: Config, s: Service, source: Source, cls: ErrorClass)
    requires Inv(cfg, s)
    ensures ErrorOutcome(cfg, s, ChannelError(cfg, s, source, cls), source, cls)
  {
    if source == Control && !s.teardown {
      ControlErrorEndsWait(cfg, s, cls);
    }
    hide Inv, HandleError, Outdate, CountPreHandshake, Escalate, Broken, Noticed, TornDown, Tolerated, Recovering,
      WaitOver;
    GraceCount(cfg, s);
    if s.teardown {
    } else if source == Control {
      OutdatedOk(cfg, s);
      if Absorbed(cfg, s, source, cls) {
        AbsorbedOnceHandled(cfg, OutdateWait(s), source, cls);
      } else {
        OutcomeFrom(cfg, s, OutdateWait(s), source, cls);
      }
    } else if PreHandshake(s) {
      var escalated := Escalate(CountPreHandshake(cfg, s));
      if !Absorbed(cfg, s, source, cls) {
        EscalatedOk(cfg, s);
        OutcomeFrom(cfg, s, escalated, source, cls);
      } else if CountPreHandshake(cfg, s).grace.errors > cfg.graceMaxErrors {
        AbsorbedOnceHandled(cfg, escalated, source, cls);
      }
    } else if Absorbed(cfg, s, source, cls) {
      AbsorbedOnceHandled(cfg, s, source, cls);
    } else {
      OutcomeFrom(cfg, s, s, source, cls);
    }
  }

  lemma OutdatedOk(cfg: Config, s: Service)
    requires Inv(cfg, s)
    ensures Inv(cfg, OutdateWait(s))
  {
    hide Inv, Outdate;
    Parts(cfg, s);
    ComponentSteps.OutdateOk(s.hs);
    HandshakeChangeOk(cfg, s, Outdate(s.hs));
  }

  /** A channel error in a reachable state: it ends the connection and its session, with a recovery
      under way, exactly when it is not absorbed, not waited out, of a class that recovers, and no
      recovery was under way; in every other case the connection goes on as it was. */
  lemma ErrorEndsConnectionIff(cfg: Config, s: Service, source: Source, cls: ErrorClass)
    requires Reachable(cfg, s)
    ensures ErrorOutcome(cfg, s, ChannelError(cfg, s, source, cls), source, cls)
  {
    ReachableOk(cfg, s);
    hide Inv, Reachable, ChannelError, ErrorOutcome;
    OutcomeOfError(cfg, s, source, cls);
  }

  lemma ErrorKeepsTimeouts(cfg: Config, s: Service, cls: ErrorClass)
    ensures SameTimeouts(s, ChannelError(cfg, s, Control, cls))
  {
    hide Recover, NoteError, Recovering;
    var waiting := OutdateWait(s);
    NotedIs(cfg, waiting, Control);
    RecoverKeepsOff(cfg, NoteError(cfg, waiting, Control), cls);
  }
}
