/** The protocol's guarantees, stated for every state a run can reach. */
module ServiceTheorems {
  import opened Bytes
  import opened ErrorText
  import opened ServiceState
  import opened Wrappers
  import opened ServiceSteps
  import opened ServiceEvents
  import opened ServiceInvariants
  import opened ServiceProofs
  import opened StepProofs
  import H264

  /** s can be reached under cfg. */
  ghost predicate Reachable(cfg: Config, s: Service) {
    ValidConfig(cfg) && exists now: nat, events: seq<Event> :: now > 0 && Replay(cfg, now, events) == Some(s)
  }

  lemma ReachableOk(cfg: Config, s: Service)
    requires Reachable(cfg, s)
    ensures Inv(cfg, s)
  {
    hide Inv, Replay;
    var now: nat, events: seq<Event> :| now > 0 && Replay(cfg, now, events) == Some(s);
    EveryRunIsSafe(cfg, now, events);
  }

  lemma InitialIsReachable(cfg: Config, now: nat)
    requires ValidConfig(cfg) && now > 0
    ensures Reachable(cfg, Initial(cfg, now))
  {
    hide Initial;
    assert Replay(cfg, now, []) == Some(Initial(cfg, now));
  }

  lemma StepIsReachable(cfg: Config, s: Service, e: Event)
    requires Reachable(cfg, s) && Enabled(cfg, s, e)
    ensures Reachable(cfg, Step(cfg, s, e))
  {
    hide Initial, Step, Enabled;
    var now: nat, events: seq<Event> :| now > 0 && Replay(cfg, now, events) == Some(s);
    var more := events + [e];
    assert more[..|more| - 1] == events;
    assert Replay(cfg, now, more) == Some(Step(cfg, s, e));
  }

  /** The connection state fixes the session state; the heartbeat runs only in an active, stored
      session; at most one stored session is open and it is the current one, and none is open
      while DISCONNECTED, SEARCHING or in ERROR. */
  lemma SessionLifecycleHolds(cfg: Config, s: Service)
    requires Reachable(cfg, s)
    ensures s.conn == Connected ==> s.sess.state == Active && s.sess.current.Some?
    ensures s.conn == Connecting ==> s.sess.state == Negotiating
    ensures s.conn == Disconnected ==> s.sess.state == Ended || s.sess.state == Errored
    ensures s.sess.heartbeat ==> s.sess.state == Active && s.sess.current.Some?
    ensures forall id: nat :: Open(s.sess.log, id) <==> s.sess.current == Some(id)
    ensures s.conn == Disconnected || s.conn == Searching || s.conn == Failed ==>
              forall id: nat :: !Open(s.sess.log, id)
    ensures Orderly(s.sess.log) && forall id: nat :: EndCount(s.sess.log, id) <= 1
  {
    ReachableOk(cfg, s);
    forall id: nat ensures Open(s.sess.log, id) <==> s.sess.current == Some(id) {
      assert RowOk(s.sess, id);
    }
    forall id: nat ensures EndCount(s.sess.log, id) <= 1 {
      assert RowOk(s.sess, id);
    }
  }

  // ----- readiness -----

  /** Readiness is announced only after a connection was established and, since the last reset
      of the projection status, the version response, the discovery request and, with video, the
      open, set up, running and framed video stream; a frame counts only as the mode demands. */
  lemma ReadinessProvenance(cfg: Config, s: Service)
    requires Reachable(cfg, s)
    ensures AnnouncementsJustified(cfg, s.proj.notes) && FramesCarrySlices(cfg, s.proj.notes)
    ensures Ready(cfg, s.conn, s.proj) ==> Justified(cfg, s.proj.notes)
  {
    ReachableOk(cfg, s);
  }

  /** No milestone survives a reset: right after one, nothing is known. */
  lemma ResetForgetsEverything(cfg: Config, s: Service, established: bool)
    requires Reachable(cfg, s)
    ensures var t := ResetProjection(cfg, s, established);
            && !Ready(cfg, t.conn, t.proj) && FlagsMatch(t.proj)
            && !SinceReset(t.proj.notes, VersionNote) && !SinceReset(t.proj.notes, DiscoveryNote)
            && !SinceReset(t.proj.notes, OpenedNote) && !SinceReset(t.proj.notes, ConfiguredNote)
            && !Running(t.proj.notes) && !Framed(t.proj.notes)
  {
  }

  /** The step behind it: the first accepted frame is announced exactly when the core decodes it. */
  lemma FirstFrameAnnouncedIff(cfg: Config, s: Service, data: seq<byte>)
    requires cfg.videoEnabled && !s.proj.frame && (cfg.h264 ==> H264.HasVcl(data))
    ensures var t := OnVideoFrame(cfg, s, data);
            && t.proj.frame
            && (t.proj.notes.note.PublishedNote? <==> !cfg.h264)
            && (Ready(cfg, s.conn, s.proj.(frame := true)) ==>
                  Ready(cfg, t.conn, t.proj) && (t.proj.notes.note == PublishedNote(true) <==> !cfg.h264))
  {
  }

  // ----- handshake watchdog -----

  /** Pending watchdogs have distinct epochs, so at most one can act; a version response leads to
      at most one retry and one timeout error, and a timeout error is raised only if nothing
      cleared the wait since that response. */
  lemma WatchdogEpochs(cfg: Config, s: Service)
    requires Reachable(cfg, s)
    ensures forall w, v :: w in s.hs.watchdogs && v in s.hs.watchdogs && w != v ==> w.epoch != v.epoch
    ensures forall w, v :: w in s.hs.watchdogs && v in s.hs.watchdogs && Acts(s, w) && Acts(s, v) ==> w == v
    ensures forall r: nat :: RetryCount(s.hs.log, r) <= 1 && TimeoutCount(s.hs.log, r) <= 1
    ensures TimeoutsWereQuiet(s.hs.log)
    ensures forall w :: w in s.hs.watchdogs && Acts(s, w) ==> QuietSince(s.hs.log, w.response)
  {
    ReachableOk(cfg, s);
    forall r: nat ensures RetryCount(s.hs.log, r) <= 1 && TimeoutCount(s.hs.log, r) <= 1 {
      assert ResponseOk(s.hs, r);
    }
  }

  // ----- version requests -----

  /** Within one window the requests of a chain are spaced, end with the window, and are few. */
  lemma RequestsAreBounded(cfg: Config, s: Service, c: nat)
    requires Reachable(cfg, s)
    ensures Spaced(s.ver.sends)
    ensures forall w: nat :: SendCount(s.ver.sends, c, w) <= cfg.recoveryWindowMs / 250 + 1
    ensures SendCount(s.ver.sends, c, s.ver.window) > 0 ==>
              s.ver.first <= LastSend(s.ver.sends, c) <= s.ver.first + cfg.recoveryWindowMs
  {
    ReachableOk(cfg, s);
    assert ChainOk(cfg, s.now, s.ver, c);
    forall w: nat ensures SendCount(s.ver.sends, c, w) <= cfg.recoveryWindowMs / 250 + 1 {
      assert CountOk(cfg, s.ver, c, w);
    }
  }

  /** Each chain has one outstanding promise or pending timer at most, so as long as the
      control handler was created once there is only one altogether. */
  lemma OneTokenPerChain(cfg: Config, s: Service)
    requires Reachable(cfg, s)
    ensures forall t, u :: t in s.ver.tokens && u in s.ver.tokens && t.chain == u.chain ==> t == u
    ensures forall t :: t in s.ver.tokens ==> t.chain < s.ver.chains
    ensures s.ver.chains <= 1 ==> forall t, u :: t in s.ver.tokens && u in s.ver.tokens ==> t == u
  {
    ReachableOk(cfg, s);
    forall t | t in s.ver.tokens ensures t.chain < s.ver.chains {
      assert TokenOk(s.ver, t);
    }
  }

  /** Recovery drops the control channel and its handler, but a pending retry stays pending. */
  lemma PendingRetrySurvivesRecovery(cfg: Config, s: Service, t: Token)
    requires t in s.ver.tokens && !s.deviceGone
    ensures var r := ImmediateRecovery(cfg, s);
            t in r.ver.tokens && !r.control && !r.handler
  {
    hide TransitionTo, ResetProjection;
    var scheduled := s.(deviceGone := true, search := s.search.(hubStarted := false), ver := ResetRequests(s.ver));
    DisconnectFrame(cfg, scheduled);
    var idle := Disconnect(cfg, scheduled);
    ResetFrame(cfg, idle.(teardown := true, pipeline := false, control := false, handler := false), false);
    TransitionFrame(cfg, CleanupChannels(cfg, idle), Disconnected);
  }

  lemma DisconnectFrame(cfg: Config, s: Service)
    ensures var t := Disconnect(cfg, s);
            t == s.(conn := t.conn, proj := t.proj, sess := t.sess, hs := t.hs, grace := t.grace)
  {
    hide TransitionTo, ResetProjection;
    TransitionFrame(cfg, s, Disconnecting);
    ResetFrame(cfg, TransitionTo(cfg, s, Disconnecting), false);
    TransitionFrame(cfg, ResetProjection(cfg, TransitionTo(cfg, s, Disconnecting), false), Disconnected);
  }

  /** When a rejected request is retried rather than reported. */
  predicate RetriesOn(cfg: Config, s: Service, settlement: Settlement) {
    match settlement
    case Delivered => false
    case InProgress => true
    case Rejected(_) => false
    case UsbTimeout(native2, _) =>
      && cfg.fastReconnect && native2 && s.ver.native2 + 1 < cfg.native2Threshold
      && s.conn == Connected && s.ver.attempts < cfg.versionMaxAttempts
  }

  function Native2After(s: Service, settlement: Settlement): nat {
    if !settlement.UsbTimeout? then s.ver.native2 else if settlement.native2 then s.ver.native2 + 1 else 0
  }

  /** The state in which the fate of a settled request is decided. */
  function Taken(s: Service, chain: nat, native2: nat): Service {
    s.(ver := s.ver.(tokens := s.ver.tokens - {InFlight(chain)}, native2 := native2))
  }

  /** A rejected request is retried once, between 250 ms and 5 s later, exactly when RetriesOn
      says so; otherwise it is reported as an error of the control channel. The immediate
      recovery inside the below-threshold branch is never taken. */
  lemma RejectionRetriesOrReports(cfg: Config, s: Service, chain: nat, settlement: Settlement)
    requires ValidConfig(cfg) && !settlement.Delivered?
    ensures var t := SettleVersionRequest(cfg, s, chain, settlement);
            var taken := Taken(s, chain, Native2After(s, settlement));
            && (RetriesOn(cfg, s, settlement) ==>
                  exists delay: nat :: 250 <= delay <= 5000 && t == Retry(taken, chain, delay))
            && (!RetriesOn(cfg, s, settlement) ==>
                  exists text :: t == ControlError(cfg, taken, text))
  {
    hide ControlError, RequestTimeout, Retry;
    match settlement {
      case InProgress =>
        assert SettleVersionRequest(cfg, s, chain, settlement) == Retry(Taken(s, chain, s.ver.native2), chain, 300);
      case Rejected(text) =>
        assert SettleVersionRequest(cfg, s, chain, settlement) ==
               ControlError(cfg, Taken(s, chain, s.ver.native2), text);
      case UsbTimeout(native2, text) => TimeoutRetriesOrReports(cfg, s, chain, native2, text);
    }
  }

  lemma TimeoutRetriesOrReports(cfg: Config, s: Service, chain: nat, native2: bool, text: string)
    requires ValidConfig(cfg)
    ensures var settlement := UsbTimeout(native2, text);
            var t := SettleVersionRequest(cfg, s, chain, settlement);
            var taken := Taken(s, chain, Native2After(s, settlement));
            var delay := RetryDelay(cfg, taken.ver.attempts);
            var exhausted := cfg.fastReconnect && native2 && taken.ver.native2 < cfg.native2Threshold;
            if RetriesOn(cfg, s, settlement) then t == Retry(taken, chain, delay) && 250 <= delay <= 5000
            else t == ControlError(cfg, taken, if exhausted then VersionAttemptsText(taken.ver.attempts) else text)
  {
    hide ControlError, ImmediateRecovery, VersionAttemptsText, Retry, RetryDelay;
    RetryDelayBounds(cfg, s.ver.attempts);
    var unsettled := s.(ver := s.ver.(tokens := s.ver.tokens - {InFlight(chain)}));
    assert SettleVersionRequest(cfg, s, chain, UsbTimeout(native2, text)) ==
           RequestTimeout(cfg, unsettled, chain, native2, text);
    var n := if native2 then s.ver.native2 + 1 else 0;
    assert unsettled.(ver := unsettled.ver.(native2 := n)) == Taken(s, chain, n);
  }

  /** While CONNECTED, the timeout that reaches the fast-reconnect threshold does not reconnect:
      its text is recoverable, so receives are re-armed, the chain ends, and nothing is retried. */
  lemma ThresholdTimeoutStallsTheChain(cfg: Config, s: Service, chain: nat, text: string)
    requires Reachable(cfg, s) && InFlight(chain) in s.ver.tokens
    requires s.conn == Connected && s.ver.native2 + 1 >= cfg.native2Threshold
    requires IsUsbTransferTimeout(text)
    ensures var t := SettleVersionRequest(cfg, s, chain, UsbTimeout(true, text));
            && t.conn == Connected && t.sess == s.sess && t.proj == s.proj && t.search == s.search
            && forall u :: u in t.ver.tokens ==> u.chain != chain
  {
    ReachableOk(cfg, s);
    TakeTokenOk(cfg, s, InFlight(chain));
    hide Inv, ControlError, SettleVersionRequest;
    TimeoutRetriesOrReports(cfg, s, chain, true, text);
    TimeoutsNeverDispatchWhileConnected(cfg, Taken(s, chain, s.ver.native2 + 1), Control, text);
    ControlErrorIs(cfg, Taken(s, chain, s.ver.native2 + 1), text);
  }

  /** A no-device error in the pre-start window that the grace count still covers. */
  predicate Graced(cfg: Config, s: Service, cls: ErrorClass) {
    && cls.noDevice && s.proj.discovery && !s.proj.started && !s.proj.audioStarted
    && s.grace.noDevice < cfg.noDeviceGraceMax
  }

  /** The classes of errors that the dispatch at the end of onChannelError recovers from. */
  predicate Recovering(cls: ErrorClass) {
    cls.timeout || cls.noDevice || cls.versionTimeout || cls.handshakeTimeout || cls.aborted
  }

  /** Whether an error of the control channel leads to recovery, unless one is under way. */
  predicate Recovers(cfg: Config, s: Service, cls: ErrorClass) {
    && !s.teardown && !(s.conn == Connected && cls.recoverable) && !Graced(cfg, s, cls)
    && Recovering(cls)
  }

  /** The timeout that reaches the threshold leads to recovery exactly when one is under way, or
      the service is neither CONNECTED nor in teardown and the error is not graced. */
  lemma ThresholdTimeoutRecoversIff(cfg: Config, s: Service, chain: nat, text: string)
    requires ValidConfig(cfg) && s.ver.native2 + 1 >= cfg.native2Threshold && IsUsbTransferTimeout(text)
    ensures SettleVersionRequest(cfg, s, chain, UsbTimeout(true, text)).deviceGone <==>
            s.deviceGone || (s.conn != Connected && !s.teardown && !Graced(cfg, s, Classify(true, text)))
  {
    hide ControlError, SettleVersionRequest, Classify, Graced, IsUsbTransferTimeout;
    TimeoutRetriesOrReports(cfg, s, chain, true, text);
    var taken := Taken(s, chain, s.ver.native2 + 1);
    ControlErrorIs(cfg, taken, text);
    TimeoutIsRecoverable(text);
    RecoveryIff(cfg, taken, Classify(true, text));
    RecoversAsTaken(cfg, s, chain, s.ver.native2 + 1, Classify(true, text));
  }

  lemma TimeoutIsRecoverable(text: string)
    requires IsUsbTransferTimeout(text)
    ensures Classify(true, text).timeout && Classify(true, text).recoverable
  {
    ClassifierInclusions(text);
    hide IsUsbTransferTimeout;
  }

  lemma RecoversAsTaken(cfg: Config, s: Service, chain: nat, native2: nat, cls: ErrorClass)
    ensures Recovers(cfg, Taken(s, chain, native2), cls) == Recovers(cfg, s, cls)
  {
  }

  lemma RecoveryIff(cfg: Config, s: Service, cls: ErrorClass)
    ensures ChannelError(cfg, s, Control, cls).deviceGone <==> s.deviceGone || Recovers(cfg, s, cls)
  {
    hide Outdate, Ready, ForgetErrors, ImmediateRecovery, Disconnect;
    var waiting := OutdateWait(s);
    var noted := NoteError(cfg, waiting, Control);
    RecoveryFlag(cfg, noted);
    DisconnectFrame(cfg, noted.(deviceGone := true));
    NotedFrame(cfg, waiting);
  }

  lemma NotedFrame(cfg: Config, s: Service)
    ensures var t := NoteError(cfg, s, Control);
            && t.deviceGone == s.deviceGone && t.grace.noDevice == s.grace.noDevice
            && t.proj == s.proj.(notes := t.proj.notes)
  {
    hide Ready;
  }

  lemma RecoveryFlag(cfg: Config, s: Service)
    ensures ImmediateRecovery(cfg, s).deviceGone
  {
    hide TransitionTo, CleanupChannels, Disconnect, ResetProjection;
    var scheduled := ScheduleRecovery(s);
    DisconnectFrame(cfg, scheduled);
    var idle := Disconnect(cfg, scheduled);
    CleanupFrame(cfg, idle);
    TransitionFrame(cfg, CleanupChannels(cfg, idle), Disconnected);
  }

  lemma CleanupFrame(cfg: Config, s: Service)
    ensures CleanupChannels(cfg, s).deviceGone == s.deviceGone
  {
    hide ResetProjection;
    ResetFrame(cfg, s.(teardown := true, pipeline := false, control := false, handler := false), false);
  }

  lemma ControlErrorIs(cfg: Config, s: Service, text: string)
    ensures ControlError(cfg, s, text) == ChannelError(cfg, s, Control, Classify(true, text))
  {
    hide ChannelError, Classify;
  }

  // ----- recoverable errors -----

  /** What a recoverable error must leave alone: everything but the handshake wait and the grace count. */
  predicate Undisturbed(s: Service, t: Service) {
    t == s.(hs := t.hs, grace := t.grace)
  }

  lemma RecoverableErrorIsAbsorbed(cfg: Config, s: Service, source: Source, cls: ErrorClass)
    requires s.conn == Connected && cls.recoverable
    ensures Undisturbed(s, ChannelError(cfg, s, source, cls))
  {
    hide HandleError, Outdate, CountError, RecordGrace;
    AbsorbedOnceHandled(cfg, s, source, cls);
    AbsorbedOnceHandled(cfg, OutdateWait(s), source, cls);
    AbsorbedOnceHandled(cfg, Escalate(CountPreHandshake(cfg, s)), source, cls);
  }

  lemma AbsorbedOnceHandled(cfg: Config, s: Service, source: Source, cls: ErrorClass)
    ensures s.conn == Connected && cls.recoverable ==> HandleError(cfg, s, source, cls) == s
  {
    hide NoteError, Recover;
  }

  datatype Report = Report(source: Source, text: string)

  function ReportAll(cfg: Config, s: Service, reports: seq<Report>): Service {
    if |reports| == 0 then s
    else
      var last := reports[|reports| - 1];
      ChannelError(cfg, ReportAll(cfg, s, reports[..|reports| - 1]), last.source,
                   Classify(last.source == Control, last.text))
  }

  /** From CONNECTED, any number of recoverable errors on any channels leaves the connection, the
      session, the readiness flags, the decoder and the mixer as they were. */
  lemma {:induction false} RecoverableErrorsNeverTearDown(cfg: Config, s: Service, reports: seq<Report>)
    requires s.conn == Connected
    requires forall i :: 0 <= i < |reports| ==> IsRecoverableUsbReceive(reports[i].text)
    ensures Undisturbed(s, ReportAll(cfg, s, reports))
  {
    hide ChannelError, IsRecoverableUsbReceive;
    if |reports| > 0 {
      var before, last := reports[..|reports| - 1], reports[|reports| - 1];
      RecoverableErrorsNeverTearDown(cfg, s, before);
      var cls := Classify(last.source == Control, last.text);
      RecoverableErrorIsAbsorbed(cfg, ReportAll(cfg, s, before), last.source, cls);
    }
  }

  /** So a USB timeout never reaches the recovery dispatch while CONNECTED. */
  lemma TimeoutsNeverDispatchWhileConnected(cfg: Config, s: Service, source: Source, text: string)
    requires s.conn == Connected && IsUsbTransferTimeout(text)
    ensures Undisturbed(s, ChannelError(cfg, s, source, Classify(source == Control, text)))
  {
    ClassifierInclusions(text);
    RecoverableErrorIsAbsorbed(cfg, s, source, Classify(source == Control, text));
  }

  // ----- pre-handshake grace window -----

  /** The counter is the number of errors counted in the open window, and an error escalated only
      when more than the maximum had been counted inside one window. */
  lemma GraceWindowHolds(cfg: Config, s: Service)
    requires Reachable(cfg, s)
    ensures s.grace.errors == ErrorsInWindow(s.grace.log) && s.grace.start == WindowStart(s.grace.log)
    ensures GraceHistoryOk(cfg, s.grace.log)
  {
    ReachableOk(cfg, s);
  }

  /** Before the handshake a non-control error reaches the recovery dispatch exactly when it is
      the one that exceeds the maximum of the window it falls into. */
  lemma PreHandshakeErrorDispatchIff(cfg: Config, s: Service, source: Source, cls: ErrorClass)
    requires Reachable(cfg, s) && PreHandshake(s) && !s.teardown && source != Control
    ensures var window := if s.grace.start == 0 || s.now > s.grace.start + cfg.graceWindowMs then 0
                          else ErrorsInWindow(s.grace.log);
            var counted := s.(grace := CountError(cfg, s.grace, s.now));
            && (window < cfg.graceMaxErrors ==> ChannelError(cfg, s, source, cls) == counted)
            && (window >= cfg.graceMaxErrors ==>
                  ChannelError(cfg, s, source, cls) ==
                  HandleError(cfg, counted.(grace := RecordGrace(counted.grace, Escalated(s.now))), source, cls))
  {
    ReachableOk(cfg, s);
    hide HandleError;
  }

  // ----- USB search -----

  /** At most one hub promise carries the current generation, and none of that generation has
      attached while it is pending: each generation attaches at most once. */
  lemma SearchGenerations(cfg: Config, s: Service)
    requires Reachable(cfg, s)
    ensures forall p, q :: p in s.search.promises && q in s.search.promises ==>
              p.generation == q.generation == s.search.generation ==> p == q
    ensures AttachedOnce(s.search.attachments)
    ensures forall p :: p in s.search.promises && p.generation == s.search.generation ==>
              !AttachedWith(s.search.attachments, p.generation)
  {
    ReachableOk(cfg, s);
  }

  /** A hub promise connects exactly when it is of the current generation, the service is still
      SEARCHING and the device is in accessory mode; otherwise nothing but the promise goes. */
  lemma HubPromiseConnectsIff(cfg: Config, s: Service, p: HubPromise, result: HubResult)
    requires Reachable(cfg, s) && p in s.search.promises
    ensures var t := SettleHub(cfg, s, p, result);
            var connects := p.generation == s.search.generation && s.conn == Searching && result.Direct?;
            && (t.conn == Connected <==> s.conn == Connected || connects)
            && (!connects ==> t == s.(search := s.search.(promises := s.search.promises - {p})))
            && (connects ==> t.sess.current.Some? && t.sess.state == Active)
  {
    hide Attach, Reachable;
    if p.generation == s.search.generation && s.conn == Searching && result.Direct? {
      HubPromiseConnects(cfg, s, p, result);
    }
  }

  lemma HubPromiseConnects(cfg: Config, s: Service, p: HubPromise, result: HubResult)
    requires Reachable(cfg, s) && p in s.search.promises
    requires p.generation == s.search.generation && s.conn == Searching && result.Direct?
    ensures var t := SettleHub(cfg, s, p, result);
            t.conn == Connected && t.sess.current.Some? && t.sess.state == Active
  {
    ReachableOk(cfg, s);
    hide Inv, Attach, SearchOk, Reachable;
    Parts(cfg, s);
    TakePromiseOk(cfg, s.conn, s.search, p);
    var taken := s.(search := s.search.(promises := s.search.promises - {p}));
    SearchChangeOk(cfg, s, taken.search);
    var attached := taken.(search := taken.search.(attachments := Attached(taken.search.attachments, p.generation)));
    SearchChangeOk(cfg, taken, attached.search);
    AttachOk(cfg, attached, result.setup, result.delay);
    ConnectedIsActive(cfg, SettleHub(cfg, s, p, result));
  }

  lemma ConnectedIsActive(cfg: Config, s: Service)
    requires Inv(cfg, s) && s.conn == Connected
    ensures s.sess.current.Some? && s.sess.state == Active
  {
    hide RestOk, StoreOk;
  }
}
