/** When a rejected version request is the last: neither retried nor followed by recovery. */
module StalledChain {
  import opened ErrorText
  import opened ServiceState
  import opened ServiceSteps
  import opened ServiceEvents
  import opened ServiceTheorems
  import opened RequestChains
  import opened TwoChains

  /** The chain has ended, and no recovery is under way. */
  predicate Stalled(s: Service, chain: nat) {
    !Pending(s.ver.tokens, chain) && !s.deviceGone
  }

  /** What a rejected request is reported with when it is not retried. */
  function ReportedText(cfg: Config, s: Service, settlement: Settlement): string {
    match settlement
    case Delivered => ""
    case InProgress => ""
    case Rejected(text) => text
    case UsbTimeout(native2, text) =>
      if cfg.fastReconnect && native2 && s.ver.native2 + 1 < cfg.native2Threshold
      then VersionAttemptsText(s.ver.attempts)
      else text
  }

  lemma ReportedAs(cfg: Config, s: Service, chain: nat, settlement: Settlement)
    requires ValidConfig(cfg) && !settlement.Delivered? && !RetriesOn(cfg, s, settlement)
    ensures SettleVersionRequest(cfg, s, chain, settlement) ==
            ControlError(cfg, Taken(s, chain, Native2After(s, settlement)), ReportedText(cfg, s, settlement))
  {
    hide ControlError, RequestTimeout, VersionAttemptsText;
    match settlement {
      case InProgress =>
      case Rejected(_) =>
      case UsbTimeout(native2, text) => TimeoutRetriesOrReports(cfg, s, chain, native2, text);
    }
  }

  lemma TakenIsNotPending(cfg: Config, s: Service, chain: nat, native2: nat)
    requires Reachable(cfg, s) && InFlight(chain) in s.ver.tokens
    ensures !Pending(Taken(s, chain, native2).ver.tokens, chain)
  {
    hide Reachable;
    OneTokenPerChain(cfg, s);
  }

  /** A rejected request ends its chain without recovery exactly when it is not retried, no recovery
      is under way, and its error leads to none: it falls into a teardown, is recoverable while
      CONNECTED, is covered by the no-device grace, or belongs to no class that recovers. */
  lemma RejectionStallsIff(cfg: Config, s: Service, chain: nat, settlement: Settlement)
    requires Reachable(cfg, s) && InFlight(chain) in s.ver.tokens && !settlement.Delivered?
    ensures Stalled(SettleVersionRequest(cfg, s, chain, settlement), chain) <==>
            && !RetriesOn(cfg, s, settlement) && !s.deviceGone
            && !Recovers(cfg, s, Classify(true, ReportedText(cfg, s, settlement)))
  {
    assert ValidConfig(cfg);
    hide ControlError, SettleVersionRequest, Classify, Recovers, Reachable, RetriesOn, ReportedText, Native2After;
    var taken := Taken(s, chain, Native2After(s, settlement));
    RejectionRetriesOrReports(cfg, s, chain, settlement);
    if RetriesOn(cfg, s, settlement) {
      var delay: nat :| SettleVersionRequest(cfg, s, chain, settlement) == Retry(taken, chain, delay);
      assert Waiting(chain, taken.now + delay, false) in Retry(taken, chain, delay).ver.tokens;
    } else {
      var text := ReportedText(cfg, s, settlement);
      ReportedAs(cfg, s, chain, settlement);
      ControlErrorDrops(cfg, taken, text);
      TakenIsNotPending(cfg, s, chain, Native2After(s, settlement));
      ControlErrorIs(cfg, taken, text);
      RecoveryIff(cfg, taken, Classify(true, text));
      RecoversAsTaken(cfg, s, chain, Native2After(s, settlement), Classify(true, text));
    }
  }

  /** So while CONNECTED every transfer timeout that is not retried stalls its chain: at the
      threshold, with native code -4, and whenever fast reconnect is off. */
  lemma UnretriedTimeoutStalls(cfg: Config, s: Service, chain: nat, native2: bool, text: string)
    requires Reachable(cfg, s) && InFlight(chain) in s.ver.tokens && s.conn == Connected && !s.deviceGone
    requires IsUsbTransferTimeout(text)
    requires !cfg.fastReconnect || !native2 || s.ver.native2 + 1 >= cfg.native2Threshold
    ensures Stalled(SettleVersionRequest(cfg, s, chain, UsbTimeout(native2, text)), chain)
  {
    hide SettleVersionRequest, Stalled, Reachable, Classify, IsUsbTransferTimeout;
    RejectionStallsIff(cfg, s, chain, UsbTimeout(native2, text));
    TimeoutIsRecoverable(text);
  }

  // ----- a run to it -----

  /** The first request of a connection is sent, and times out with native code 2. */
  lemma FirstRequestTimesOut(cfg: Config, s: Service) returns (t: Service)
    requires ValidConfig(cfg) && Reachable(cfg, s) && cfg.native2Threshold == 1
    requires s.conn == Connected && s.control && s.handler && !s.deviceGone && !s.proj.version
    requires s.ver.tokens == {Waiting(0, s.now + 500, true)} && s.ver.first == 0
    ensures Reachable(cfg, t) && t.conn == Connected && t.ver.tokens == {} && !t.deviceGone && !t.proj.version
    ensures t.sess == s.sess
  {
    hide Reachable, SettleVersionRequest, IsUsbTransferTimeout;
    var due, first := Tick(500), Fired(RequestTimer(Waiting(0, s.now + 500, true)));
    StepIsReachable(cfg, s, due);
    var later := Step(cfg, s, due);
    StepIsReachable(cfg, later, first);
    var sent := Step(cfg, later, first);
    RequestLeaves(cfg, later, Waiting(0, s.now + 500, true));
    var text := What(10, 2, "");
    PlainTimeout();
    var settled := Arrived(RequestSettled(InFlight(0), UsbTimeout(true, text)));
    StepIsReachable(cfg, sent, settled);
    t := Step(cfg, sent, settled);
    ThresholdTimeoutStallsTheChain(cfg, sent, 0, text);
    ThresholdTimeoutRecoversIff(cfg, sent, 0, text);
    StalledTokens(cfg, sent, 0, text);
  }

  lemma RequestLeaves(cfg: Config, s: Service, token: Token)
    requires token == Waiting(0, s.now, true) && s.ver.tokens == {token} && s.ver.first == 0
    requires s.conn == Connected && s.control && s.handler
    ensures var t := VersionTimer(cfg, s, token);
            && t == s.(ver := t.ver) && t.ver.tokens == {InFlight(0)}
  {
    hide ControlError, VersionTimeoutText;
    assert {token} - {token} == {};
  }

  lemma PlainTimeout()
    ensures IsUsbTransferTimeout(What(10, 2, ""))
  {
    hide What;
    UsbTransferIsExactOnSmallCodes(10, 2, "", 2);
  }

  lemma StalledTokens(cfg: Config, s: Service, chain: nat, text: string)
    requires ValidConfig(cfg) && Reachable(cfg, s) && s.ver.tokens == {InFlight(chain)} && s.conn == Connected
    requires s.ver.native2 + 1 >= cfg.native2Threshold && IsUsbTransferTimeout(text)
    ensures SettleVersionRequest(cfg, s, chain, UsbTimeout(true, text)).ver.tokens == {}
  {
    hide Reachable, SettleVersionRequest, IsUsbTransferTimeout, ControlError;
    TimeoutRetriesOrReports(cfg, s, chain, true, text);
    var taken := Taken(s, chain, s.ver.native2 + 1);
    ControlErrorIs(cfg, taken, text);
    TimeoutsNeverDispatchWhileConnected(cfg, taken, Control, text);
    assert {InFlight(chain)} - {InFlight(chain)} == {};
  }

  /** Over USB, with a threshold of one: the service is CONNECTED with an open session and no
      version, and nothing is pending that could ever ask for it again. */
  lemma ChainStalls(cfg: Config)
    requires ValidConfig(cfg) && !cfg.wireless && cfg.native2Threshold == 1
    ensures exists s :: Reachable(cfg, s) && s.conn == Connected && s.sess.current.Some? && !s.proj.version
                        && s.ver.tokens == {} && !s.deviceGone
  {
    InitialIsReachable(cfg, 1);
    InitialIsDown(cfg);
    InitialHasNoChain(cfg);
    hide Reachable, Initial, Down;
    var searching := SearchFromDown(cfg, Initial(cfg, 1));
    var connected := ConnectFromSearch(cfg, searching);
    assert {} + {Waiting(0, connected.now + 500, true)} == {Waiting(0, connected.now + 500, true)};
    var stalled := FirstRequestTimesOut(cfg, connected);
    SessionLifecycleHolds(cfg, stalled);
  }
}
