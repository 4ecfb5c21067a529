/** A run in which two chains of version requests are pending at the same time. */
module TwoChains {
  import opened ServiceState
  import opened ServiceSteps
  import opened ServiceEvents
  import opened ServiceProofs
  import opened ServiceTheorems

  /** Before initialise(), with nothing connected. */
  predicate Down(s: Service) {
    !s.initialised && s.conn == Disconnected && !s.control && !s.handler && s.search.startupTimers == 0
  }

  lemma SearchFromDown(cfg: Config, s: Service) returns (t: Service)
    requires Reachable(cfg, s) && !cfg.wireless && Down(s)
    ensures Reachable(cfg, t) && t.initialised && t.stack && t.conn == Searching && !t.control && !t.handler
    ensures t.search.startupTimers == 1 && !t.search.hubStarted && t.ver == s.ver && t.now == s.now
  {
    hide Reachable, ResetProjection, TransitionTo;
    var up := SetupAasdk(s, true).(initialised := true);
    TransitionFrame(cfg, up, Disconnected);
    StepIsReachable(cfg, s, Called(InitialiseCall(true)));
    var ready := Step(cfg, s, Called(InitialiseCall(true)));
    ResetFrame(cfg, ready.(deviceGone := false), false);
    var reset := ResetProjection(cfg, ready.(deviceGone := false), false);
    TransitionFrame(cfg, NextSearch(reset), Searching);
    StepIsReachable(cfg, ready, Called(StartSearchingCall(Listen(true))));
    t := Step(cfg, ready, Called(StartSearchingCall(Listen(true))));
  }

  lemma SearchWithHub(cfg: Config, s: Service) returns (t: Service)
    requires Reachable(cfg, s) && s.initialised && s.stack && s.conn == Searching
    requires s.search.startupTimers == 1 && !s.search.hubStarted
    ensures Reachable(cfg, t)
    ensures t == s.(search := s.search.(hubStarted := true, startupTimers := 0, issued := s.search.issued + 1,
                      promises := s.search.promises + {HubPromise(s.search.generation, s.search.issued)}))
  {
    hide Reachable, TransitionTo;
    StepIsReachable(cfg, s, Fired(HubStartTimer));
    t := Step(cfg, s, Fired(HubStartTimer));
  }

  /** What a new connection with a new control handler starts from. */
  lemma AttachFrame(cfg: Config, s: Service)
    requires !s.control && !s.handler
    ensures var t := Attach(cfg, s, Built, 500);
            && t.conn == Connected && t.initialised == s.initialised && t.search == s.search && t.now == s.now
            && t.control && t.handler && t.pipeline && !t.teardown && !t.deviceGone
            && t.ver == NewHandler(s).ver.(tokens := s.ver.tokens + {Waiting(s.ver.chains, s.now + 500, true)})
            && !t.proj.version && !t.proj.frame
  {
    hide ResetProjection, TransitionTo, Ready, CreateSession;
    TransitionFrame(cfg, s, Connecting);
    var connecting := SetupChannels(TransitionTo(cfg, s, Connecting), Built);
    ResetFrame(cfg, connecting, true);
    ResetForgets(cfg, connecting);
    var requested := StartRequests(cfg, ResetProjection(cfg, connecting, true), 500);
    TransitionFrame(cfg, BeginSession(requested), Connected);
    TransitionKeeps(cfg, BeginSession(requested));
  }

  lemma ResetForgets(cfg: Config, s: Service)
    ensures var t := ResetProjection(cfg, s, true); !t.proj.version && !t.proj.frame
  {
    hide Ready;
  }

  lemma TransitionKeeps(cfg: Config, s: Service)
    ensures var t := TransitionTo(cfg, s, Connected);
            t.proj.version == s.proj.version && t.proj.frame == s.proj.frame
  {
    hide Ready, FollowConnection;
  }

  /** The event that connects a searching service: its hub promise settles with an accessory. */
  lemma FindDevice(cfg: Config, s: Service) returns (found: Service, e: Event)
    requires Reachable(cfg, s) && s.initialised && s.stack && s.conn == Searching && !s.control && !s.handler
    requires s.search.startupTimers == 1 && !s.search.hubStarted
    ensures Reachable(cfg, found) && found.ver == s.ver && Enabled(cfg, found, e)
    ensures var t := Step(cfg, found, e);
            && t.initialised && t.conn == Connected && t.search.startupTimers == 0
            && t.ver.chains == s.ver.chains + 1
            && t.ver.tokens == s.ver.tokens + {Waiting(s.ver.chains, s.now + 500, true)} && t.ver.sends == s.ver.sends
            && t.control && t.handler && t.pipeline && !t.teardown && !t.deviceGone
            && t.ver.first == 0 && t.ver.native2 == 0 && t.now == s.now && !t.proj.version && !t.proj.frame
  {
    hide Reachable, Attach;
    found := SearchWithHub(cfg, s);
    var promise := HubPromise(s.search.generation, s.search.issued);
    e := Arrived(HubSettled(promise, Direct(Built, 500)));
    var attachments := Attached(found.search.attachments, promise.generation);
    AttachFrame(cfg, found.(search := found.search.(promises := found.search.promises - {promise},
                                                    attachments := attachments)));
  }

  lemma ConnectFromSearch(cfg: Config, s: Service) returns (t: Service)
    requires Reachable(cfg, s) && s.initialised && s.stack && s.conn == Searching && !s.control && !s.handler
    requires s.search.startupTimers == 1 && !s.search.hubStarted
    ensures Reachable(cfg, t) && t.initialised && t.conn == Connected && t.search.startupTimers == 0
    ensures t.ver.chains == s.ver.chains + 1
    ensures t.ver.tokens == s.ver.tokens + {Waiting(s.ver.chains, s.now + 500, true)}
    ensures t.control && t.handler && !t.teardown && !t.deviceGone
    ensures t.ver.first == 0 && t.ver.native2 == 0 && t.now == s.now && !t.proj.version && !t.proj.frame
  {
    hide Reachable, Step, Enabled;
    var found, e := FindDevice(cfg, s);
    StepIsReachable(cfg, found, e);
    t := Step(cfg, found, e);
  }

  lemma ShutDown(cfg: Config, s: Service) returns (t: Service)
    requires Reachable(cfg, s) && s.initialised && s.conn == Connected && s.search.startupTimers == 0
    ensures Reachable(cfg, t) && Down(t) && t.ver == s.ver && t.now == s.now
  {
    hide Reachable, ResetProjection, TransitionTo;
    StepIsReachable(cfg, s, Called(DeinitialiseCall));
    t := Step(cfg, s, Called(DeinitialiseCall));
    DisconnectFrame(cfg, s);
    var idle := Disconnect(cfg, s);
    ResetFrame(cfg, idle.(teardown := true, pipeline := false, control := false, handler := false), false);
    TransitionFrame(cfg, CleanupAasdk(cfg, idle).(initialised := false), Disconnected);
  }

  /** Over USB: connect, shut the service down before the first request is due, initialise it and
      connect again. The timer of the first connection is still pending beside the second's. */
  lemma TwoChainsRunAtOnce(cfg: Config)
    requires ValidConfig(cfg) && !cfg.wireless
    ensures exists s, t, u :: Reachable(cfg, s) && t in s.ver.tokens && u in s.ver.tokens && t.chain != u.chain
  {
    InitialIsReachable(cfg, 1);
    InitialIsDown(cfg);
    hide Reachable, Initial, Down;
    var first := SearchFromDown(cfg, Initial(cfg, 1));
    var connected := ConnectFromSearch(cfg, first);
    var down := ShutDown(cfg, connected);
    var second := SearchFromDown(cfg, down);
    var again := ConnectFromSearch(cfg, second);
    assert Waiting(first.ver.chains, first.now + 500, true) in again.ver.tokens;
    assert Waiting(second.ver.chains, second.now + 500, true) in again.ver.tokens;
  }

  lemma InitialIsDown(cfg: Config)
    ensures Down(Initial(cfg, 1))
  {
    hide ResetProjection;
    ResetFrame(cfg, Blank(1), false);
  }

  lemma InitialHasNoChain(cfg: Config)
    ensures Initial(cfg, 1).ver.chains == 0 && Initial(cfg, 1).ver.tokens == {}
  {
    hide ResetProjection;
    ResetFrame(cfg, Blank(1), false);
  }
}
