/**
 What the protocol's timers, settled requests and control messages lead to: a wait or a retry that
 is armed, or the end of the connection.
 */
module TimeoutOutcomes {
  import opened ErrorText
  import opened ServiceState
  import opened Wrappers
  import opened ServiceSteps
  import opened ServiceEvents
  import opened ServiceInvariants
  import opened ServiceProofs
  import opened ServiceTheorems
  import opened StalledChain
  import opened ErrorOutcomes
  import opened Observations
  import ComponentSteps
  import HandshakeQuiet
  import RequestChains
  import StepProofs

  /** An error of the control channel reported on behalf of s. */
  ghost predicate Reported(cfg: Config, s: Service, t: Service, text: string) {
    && (Fatal(cfg, s, Control, Classify(true, text)) ==> Broken(s, t))
    && (!Fatal(cfg, s, Control, Classify(true, text)) ==>
          t.conn == s.conn && t.sess == s.sess && t.deviceGone == s.deviceGone)
    && (!s.teardown ==> WaitOver(s, t))
  }

  lemma ReportedFrom(cfg: Config, s: Service, variant: Service, text: string)
    requires variant == s.(hs := variant.hs, ver := variant.ver, proj := variant.proj) && Inv(cfg, variant)
    requires variant.proj.discovery == s.proj.discovery && variant.proj.started == s.proj.started
    requires variant.proj.audioStarted == s.proj.audioStarted && variant.hs.epoch == s.hs.epoch
    ensures Reported(cfg, s, ControlError(cfg, variant, text), text)
  {
    hide Inv, ControlError, Classify, SessionOver, Noticed, TornDown, Recovering;
    var cls := Classify(true, text);
    OutcomeOfError(cfg, variant, Control, cls);
    ControlErrorIs(cfg, variant, text);
  }

  /** While a connection is up, the service's own timeout messages end it. */
  lemma TimeoutsAreFatal(cfg: Config, s: Service, ms: nat, attempts: nat)
    requires !s.teardown && !s.deviceGone
    ensures Fatal(cfg, s, Control, Classify(true, HandshakeTimeoutText(ms)))
    ensures Fatal(cfg, s, Control, Classify(true, VersionTimeoutText(ms, attempts)))
    ensures Fatal(cfg, s, Control, Classify(true, VersionAttemptsText(attempts)))
  {
    hide Classify, HandshakeTimeoutText, VersionTimeoutText, VersionAttemptsText;
    TimeoutTextsAreTimeouts(ms, attempts);
  }

  // ----- the handshake watchdog -----

  /** Whether a watchdog that acts gives up. */
  predicate LastChance(cfg: Config, s: Service, w: Watchdog) {
    w.second || s.hs.retries >= cfg.handshakeRetries
  }

  ghost predicate GaveUp(s: Service, t: Service, w: Watchdog) {
    && TimeoutCount(t.hs.log, w.response) == 1
    && (!s.teardown ==> WaitOver(s, t))
    && (!s.teardown && !s.deviceGone ==> t.conn == Disconnected && Broken(s, t))
  }

  /** The wait goes on, with one more timer, and that timer acts when it fires. */
  predicate Rearmed(s: Service, t: Service, w: Watchdog, next: Watchdog) {
    && next !in s.hs.watchdogs && next.second && next.response == w.response
    && t.hs.watchdogs == s.hs.watchdogs - {w} + {next}
    && t == s.(hs := t.hs) && t.hs.awaiting && t.hs.retries == s.hs.retries + 1 && Acts(t, next)
  }

  ghost predicate WatchdogOutcome(cfg: Config, s: Service, t: Service, w: Watchdog, retry: RetryResult) {
    var awaited := s.hs.awaiting && s.hs.epoch == w.epoch && !s.proj.discovery;
    var acts := awaited && (s.conn == Connected || s.conn == Connecting);
    && (!acts ==> t == s.(hs := s.hs.(watchdogs := s.hs.watchdogs - {w})))
    && (acts && LastChance(cfg, s, w) ==> GaveUp(s, t, w))
    && (acts && !LastChance(cfg, s, w) ==>
          match retry
          case RetryThrew(what) => Reported(cfg, s, t, "Handshake retry failed: " + what)
          case Transmitted => RetryCount(t.hs.log, w.response) == 1 && exists next :: Rearmed(s, t, w, next)
          case NoChannel => exists next :: Rearmed(s, t, w, next))
  }

  lemma GivesUp(cfg: Config, s: Service, w: Watchdog, elapsed: nat)
    requires Inv(cfg, s) && w in s.hs.watchdogs && Acts(s, w)
    ensures GaveUp(s, ControlError(cfg, GiveUp(TakeWatchdog(s, w), w.response), HandshakeTimeoutText(elapsed)), w)
  {
    hide Inv, ControlError, Classify, HandshakeTimeoutText, HandshakeOk, SessionOver, Absorbed, Tolerated, Recovering;
    Parts(cfg, s);
    NotYetTimedOut(s.hs, w);
    ComponentSteps.TimeoutOk(s.hs, w);
    var given, text := GiveUp(TakeWatchdog(s, w), w.response), HandshakeTimeoutText(elapsed);
    assert given == s.(hs := given.hs);
    HandshakeChangeOk(cfg, s, given.hs);
    ReportedFrom(cfg, s, given, text);
    ErrorKeepsTimeouts(cfg, given, Classify(true, text));
    ControlErrorIs(cfg, given, text);
    if !s.teardown && !s.deviceGone {
      TimeoutsAreFatal(cfg, s, elapsed, 0);
    }
  }

  lemma NotYetTimedOut(hs: Handshake, w: Watchdog)
    requires HandshakeOk(hs) && w in hs.watchdogs
    ensures TimeoutCount(hs.log, w.response) == 0
  {
    hide WatchdogsOk;
  }

  lemma NotYetRetried(hs: Handshake, w: Watchdog)
    requires HandshakeOk(hs) && w in hs.watchdogs && !w.second
    ensures RetryCount(hs.log, w.response) == 0
  {
    hide WatchdogsOk;
  }

  lemma RearmedBy(s: Service, w: Watchdog, note: bool)
    requires HandshakeOk(s.hs) && w in s.hs.watchdogs && Acts(s, w)
    ensures var counted := CountRetry(TakeWatchdog(s, w));
            var noted := if note then counted.(hs := LogHandshake(counted.hs, RetrySent(w.response))) else counted;
            Rearmed(s, RearmWatchdog(noted, w.response), w, Watchdog(s.hs.epoch + 1, true, w.response))
  {
    hide CountsOk, QuietSince;
  }

  lemma RetryOutcome(cfg: Config, s: Service, w: Watchdog, retry: RetryResult)
    requires Inv(cfg, s) && w in s.hs.watchdogs && Acts(s, w) && !LastChance(cfg, s, w)
    ensures WatchdogOutcome(cfg, s, RetryHandshake(cfg, CountRetry(TakeWatchdog(s, w)), w.response, retry), w, retry)
  {
    hide Inv, ControlError, HandshakeOk, Reported, RearmWatchdog, Rearmed;
    Parts(cfg, s);
    match retry {
      case Transmitted =>
        RearmedBy(s, w, true);
        NotYetRetried(s.hs, w);
        RearmKeepsLog(CountRetry(TakeWatchdog(s, w)).(hs := LogHandshake(CountRetry(TakeWatchdog(s, w)).hs,
                                                                        RetrySent(w.response))), w.response);
      case NoChannel => RearmedBy(s, w, false);
      case RetryThrew(what) =>
        StoppedOk(cfg, s, w);
        var counted := CountRetry(TakeWatchdog(s, w));
        ReportedFrom(cfg, s, counted.(hs := counted.hs.(awaiting := false)), "Handshake retry failed: " + what);
    }
  }

  lemma RearmKeepsLog(s: Service, response: nat)
    ensures RearmWatchdog(s, response).hs.log == s.hs.log
  {
  }

  lemma StoppedOk(cfg: Config, s: Service, w: Watchdog)
    requires Inv(cfg, s)
    ensures var counted := CountRetry(TakeWatchdog(s, w));
            Inv(cfg, counted.(hs := counted.hs.(awaiting := false)))
  {
    hide Inv, HandshakeOk;
    Parts(cfg, s);
    ComponentSteps.FiredOk(s.hs, w);
    var fired := s.hs.(watchdogs := s.hs.watchdogs - {w});
    ComponentSteps.RetriesOk(fired, s.hs.retries + 1);
    ComponentSteps.RetriesOk(fired.(retries := s.hs.retries + 1), 0);
    HandshakeChangeOk(cfg, s, fired.(retries := s.hs.retries + 1, awaiting := false));
  }

  /** A watchdog that fires in a reachable state. One that cannot act only goes. One that acts with
      its retries used up reports the timeout of its response, the first ever, and outside
      teardown and recovery that ends the connection. One with a retry left keeps waiting with
      exactly one new timer, which can act; if the retry itself fails, that is reported. */
  lemma WatchdogDecides(cfg: Config, s: Service, w: Watchdog, elapsed: nat, retry: RetryResult)
    requires Reachable(cfg, s) && w in s.hs.watchdogs
    ensures WatchdogOutcome(cfg, s, OnWatchdog(cfg, s, w, elapsed, retry), w, retry)
  {
    ReachableOk(cfg, s);
    hide Inv, Reachable, ControlError, RetryHandshake, GaveUp, HandshakeTimeoutText;
    if Acts(s, w) {
      if LastChance(cfg, s, w) {
        GivesUp(cfg, s, w, elapsed);
      } else {
        RetryOutcome(cfg, s, w, retry);
      }
    }
  }

  // ----- version requests -----

  /** A chain's timer has something to send. */
  predicate Asks(s: Service, token: Token)
    requires token.Waiting?
  {
    s.conn == Connected && s.control && s.handler && (token.initial || !s.proj.version)
  }

  predicate WindowOver(cfg: Config, s: Service) {
    s.ver.first > 0 && s.now > s.ver.first + cfg.recoveryWindowMs
  }

  /** One request of the chain goes out now, in the current window. */
  predicate SentOne(s: Service, t: Service, token: Token) {
    && t == s.(ver := t.ver)
    && t.ver == s.ver.(tokens := s.ver.tokens - {token} + {InFlight(token.chain)},
                       sends := Sent(s.ver.sends, token.chain, s.now, s.ver.window),
                       attempts := s.ver.attempts + 1, first := t.ver.first)
    && t.ver.first == (if s.ver.first == 0 then s.now else s.ver.first)
  }

  ghost predicate RequestTimerOutcome(cfg: Config, s: Service, t: Service, token: Token)
    requires token.Waiting?
  {
    && (!Asks(s, token) ==> t == s.(ver := s.ver.(tokens := s.ver.tokens - {token})))
    && (Asks(s, token) && !WindowOver(cfg, s) ==> SentOne(s, t, token))
    && (Asks(s, token) && WindowOver(cfg, s) ==>
          t.ver.sends == s.ver.sends && (!s.teardown && !s.deviceGone ==> Broken(s, t)))
  }

  lemma WindowReported(cfg: Config, s: Service, taken: Service, text: string)
    requires Inv(cfg, taken) && taken == s.(ver := taken.ver) && taken.ver.sends == s.ver.sends
    ensures var t := ControlError(cfg, taken, text);
            && t.ver.sends == s.ver.sends
            && (Fatal(cfg, s, Control, Classify(true, text)) ==> Broken(s, t))
  {
    hide Inv, ControlError, Classify, Broken, Fatal;
    ReportedFrom(cfg, s, taken, text);
    RequestChains.ControlErrorDrops(cfg, taken, text);
  }

  lemma TimerSends(cfg: Config, s: Service, token: Token)
    requires token.Waiting? && !(Asks(s, token) && WindowOver(cfg, s))
    ensures RequestTimerOutcome(cfg, s, VersionTimer(cfg, s, token), token)
  {
    hide ControlError, VersionTimeoutText, Broken;
  }

  lemma TimerReports(cfg: Config, s: Service, token: Token)
    requires token.Waiting? && Asks(s, token) && WindowOver(cfg, s)
    ensures VersionTimer(cfg, s, token) ==
            ControlError(cfg, s.(ver := s.ver.(tokens := s.ver.tokens - {token})),
                         VersionTimeoutText(s.now - s.ver.first, s.ver.attempts))
  {
    hide ControlError, VersionTimeoutText;
    var taken := s.(ver := s.ver.(tokens := s.ver.tokens - {token}));
    assert taken.(ver := taken.ver.(first := taken.ver.first)) == taken;
  }

  /** The timer of a chain that fires in a reachable state sends one request, or, when the recovery
      window is over, reports that and, outside teardown and recovery, ends the connection. */
  lemma RequestTimerDecides(cfg: Config, s: Service, token: Token)
    requires Reachable(cfg, s) && token in s.ver.tokens && token.Waiting?
    ensures RequestTimerOutcome(cfg, s, VersionTimer(cfg, s, token), token)
  {
    if Asks(s, token) && WindowOver(cfg, s) {
      ReachableOk(cfg, s);
      hide Inv, Reachable, ControlError, VersionTimer, VersionTimeoutText, Broken, Fatal, Classify;
      var taken := s.(ver := s.ver.(tokens := s.ver.tokens - {token}));
      StepProofs.TakeTokenOk(cfg, s, token);
      TimerReports(cfg, s, token);
      WindowReported(cfg, s, taken, VersionTimeoutText(s.now - s.ver.first, s.ver.attempts));
      if !s.teardown && !s.deviceGone {
        TimeoutsAreFatal(cfg, s, s.now - s.ver.first, s.ver.attempts);
      }
    } else {
      TimerSends(cfg, s, token);
    }
  }

  /** A rejected request that is not retried is reported with its text, and the connection ends if
      that is fatal. */
  lemma RejectionReported(cfg: Config, s: Service, chain: nat, settlement: Settlement)
    requires Reachable(cfg, s) && InFlight(chain) in s.ver.tokens && !settlement.Delivered?
    requires !RetriesOn(cfg, s, settlement)
    ensures Reported(cfg, s, SettleVersionRequest(cfg, s, chain, settlement), ReportedText(cfg, s, settlement))
  {
    ReachableOk(cfg, s);
    assert ValidConfig(cfg);
    hide Inv, Reachable, ControlError, SettleVersionRequest, RetriesOn, ReportedText, Reported, Native2After;
    StepProofs.TakeTokenOk(cfg, s, InFlight(chain));
    var taken := s.(ver := s.ver.(tokens := s.ver.tokens - {InFlight(chain)}));
    StepProofs.CountTimeoutOk(cfg, taken, chain, Native2After(s, settlement));
    ReportedAs(cfg, s, chain, settlement);
    ReportedFrom(cfg, s, Taken(s, chain, Native2After(s, settlement)), ReportedText(cfg, s, settlement));
  }

  /** The retry delay: the base for the first attempt, twice and three times the base for the second
      and third, four times from then on, and never more than five seconds. */
  lemma RetryDelayGrows(cfg: Config, attempts: nat)
    ensures RetryDelay(cfg, attempts) <= 5000
    ensures var factor: nat := if attempts < 1 then 1 else if attempts > 4 then 4 else attempts;
            var full := cfg.versionRetryBaseMs * factor;
            RetryDelay(cfg, attempts) == full || (full > 5000 && RetryDelay(cfg, attempts) == 5000)
    ensures RetryDelay(cfg, attempts) <= RetryDelay(cfg, attempts + 1)
  {
    var base := cfg.versionRetryBaseMs;
    assert base * 1 <= base * 2 <= base * 3 <= base * 4;
  }

  /** A retry: the chain waits for a timer, due after the delay, and nothing else changes. */
  predicate RetriesAfter(s: Service, t: Service, chain: nat, delay: nat) {
    && t == s.(ver := t.ver)
    && t.ver == s.ver.(tokens := s.ver.tokens - {InFlight(chain)} + {Waiting(chain, s.now + delay, false)},
                       native2 := t.ver.native2)
  }

  ghost predicate SettledOutcome(cfg: Config, s: Service, t: Service, chain: nat, settlement: Settlement) {
    if settlement.Delivered? then t == s.(ver := s.ver.(tokens := s.ver.tokens - {InFlight(chain)}))
    else if !RetriesOn(cfg, s, settlement) then Reported(cfg, s, t, ReportedText(cfg, s, settlement))
    else if settlement.InProgress? then RetriesAfter(s, t, chain, 300)
    else RetriesAfter(s, t, chain, RetryDelay(cfg, s.ver.attempts)) && t.ver.native2 == s.ver.native2 + 1
  }

  /** The fate of a version request in a reachable state: nothing more when it was delivered, one
      retry when RetriesOn says so, and otherwise a report that ends the connection if it is fatal. */
  lemma SettlementDecides(cfg: Config, s: Service, chain: nat, settlement: Settlement)
    requires Reachable(cfg, s) && InFlight(chain) in s.ver.tokens
    ensures SettledOutcome(cfg, s, SettleVersionRequest(cfg, s, chain, settlement), chain, settlement)
  {
    assert ValidConfig(cfg);
    hide Reachable, ControlError, RequestTimeout, ReportedText, Reported, RetryDelay;
    if !settlement.Delivered? && !RetriesOn(cfg, s, settlement) {
      RejectionReported(cfg, s, chain, settlement);
    } else if settlement.UsbTimeout? {
      TimeoutRetriesOrReports(cfg, s, chain, settlement.native2, settlement.text);
    }
  }

  // ----- control messages -----

  /** The wait begins, with one more timer; it can act if it fires in time. */
  predicate WaitBegins(s: Service, t: Service, w: Watchdog) {
    && w !in s.hs.watchdogs && !w.second && w.response == s.hs.responses
    && t.hs.watchdogs == s.hs.watchdogs + {w} && t.hs.awaiting && t.hs.responses == s.hs.responses + 1
    && t.conn == s.conn && t.sess == s.sess
    && (!s.proj.discovery && (s.conn == Connected || s.conn == Connecting) ==> Acts(t, w))
  }

  /** The request counters begin anew. */
  predicate CountersReset(t: Service) {
    t.ver.attempts == 0 && t.ver.first == 0 && t.ver.native2 == 0
  }

  ghost predicate VersionResponseOutcome(cfg: Config, s: Service, t: Service, compatible: bool, sent: SendResult) {
    if !s.control then t == s
    else if !compatible then t.conn == Failed && NoSession(t.sess) && t.proj.version && (!s.teardown ==> !t.hs.awaiting)
    else
      match sent
      case SentOk => CountersReset(t) && t.proj.version && exists w :: WaitBegins(s, t, w)
      case Threw(None) => CountersReset(t) && t.proj.version && t.hs == s.hs && t.conn == s.conn && t.sess == s.sess
      case Threw(Some(text)) => Reported(cfg, s, t, text)
  }

  lemma NotedVersion(cfg: Config, s: Service)
    ensures var t := NoteVersion(cfg, s);
            && t == s.(ver := t.ver, proj := t.proj) && CountersReset(t) && t.proj.version
            && t.proj.discovery == s.proj.discovery && t.proj.started == s.proj.started
            && t.proj.audioStarted == s.proj.audioStarted
  {
    hide Ready;
  }

  lemma ArmedBy(s: Service, known: Service)
    requires HandshakeOk(s.hs) && known == s.(ver := known.ver, proj := known.proj)
    requires known.proj.discovery == s.proj.discovery
    ensures WaitBegins(s, ArmWatchdog(known), Watchdog(s.hs.epoch + 1, false, s.hs.responses))
  {
    hide CountsOk, QuietSince;
  }

  /** An error that leads to no recovery keeps the milestones of the control channel. */
  lemma ReportKeepsVersion(cfg: Config, s: Service, cls: ErrorClass)
    requires !Recovering(cls)
    ensures ChannelError(cfg, s, Control, cls).proj.version == s.proj.version
  {
    hide NoteError, Recover, Outdate;
    NotedIs(cfg, OutdateWait(s), Control);
    RecoverSpares(cfg, NoteError(cfg, OutdateWait(s), Control), cls);
  }

  lemma IncompatibleFails(cfg: Config, s: Service)
    ensures var t := TransitionTo(cfg, ControlError(cfg, s, "No compatible protocol version"), Failed);
            t.conn == Failed && t.proj.version == s.proj.version && (!s.teardown ==> !t.hs.awaiting)
  {
    hide Classify, ChannelError, FollowConnection, Ready, Recovering;
    NoCompatibleClass();
    var text := "No compatible protocol version";
    HandshakeQuiet.ChannelErrorCalm(cfg, s, Control, Classify(true, text));
    ReportKeepsVersion(cfg, s, Classify(true, text));
  }

  lemma NoCompatibleClass()
    ensures !Recovering(Classify(true, "No compatible protocol version"))
  {
    var text := "No compatible protocol version";
    hide HasCode;
    forall code ensures !HasCode(text, code) {
      NoCodeWithoutA(text, code);
    }
    assert text[0] == 'N' && VERSION_TIMEOUT[0] == 'V' && HANDSHAKE_TIMEOUT[0] == 'H';
  }

  lemma IncompatibleDecides(cfg: Config, s: Service, sent: SendResult)
    requires Reachable(cfg, s) && s.control
    ensures VersionResponseOutcome(cfg, s, OnVersionResponse(cfg, s, false, sent), false, sent)
  {
    hide Reachable, ControlError, TransitionTo, NoteVersion, NoSession, Reported, WaitBegins;
    NotedVersion(cfg, s);
    IncompatibleFails(cfg, NoteVersion(cfg, s));
    StepIsReachable(cfg, s, CalledBack(VersionResponse(false, sent)));
    ReachableFits(cfg, OnVersionResponse(cfg, s, false, sent));
  }

  lemma CompatibleDecides(cfg: Config, s: Service, sent: SendResult)
    requires Reachable(cfg, s) && s.control
    ensures VersionResponseOutcome(cfg, s, OnVersionResponse(cfg, s, true, sent), true, sent)
  {
    ReachableOk(cfg, s);
    hide Inv, Reachable, ControlError, NoteVersion, HandshakeOk, ArmWatchdog, Reported, WaitBegins;
    Parts(cfg, s);
    var known := NoteVersion(cfg, s);
    NotedVersion(cfg, s);
    match sent {
      case SentOk =>
        ArmedBy(s, known);
        ArmedKeeps(known);
      case Threw(None) =>
      case Threw(Some(text)) =>
        StepProofs.NoteVersionOk(cfg, s);
        ReportedFrom(cfg, s, known, text);
    }
  }

  /** A version response in a reachable state: without a control channel nothing; an incompatible
      version ends in ERROR; a compatible one that was sent on resets the request counters and
      arms exactly one watchdog; a failure to send it on is reported. */
  lemma VersionResponseDecides(cfg: Config, s: Service, compatible: bool, sent: SendResult)
    requires Reachable(cfg, s)
    ensures VersionResponseOutcome(cfg, s, OnVersionResponse(cfg, s, compatible, sent), compatible, sent)
  {
    if s.control {
      hide VersionResponseOutcome, OnVersionResponse, Reachable;
      if !compatible {
        IncompatibleDecides(cfg, s, sent);
      } else {
        CompatibleDecides(cfg, s, sent);
      }
    }
  }

  lemma ArmedKeeps(s: Service)
    ensures var t := ArmWatchdog(s); t.ver == s.ver && t.proj == s.proj
  {
  }

  /** A handshake message whose answer cannot be sent is reported. */
  lemma HandshakeFaultReported(cfg: Config, s: Service, text: string)
    requires Reachable(cfg, s) && s.control
    ensures Reported(cfg, s, OnHandshake(cfg, s, Threw(Some(text))), text)
  {
    ReachableOk(cfg, s);
    hide Inv, Reachable, ControlError, StopAwaiting, HandshakeOk, Reported;
    Parts(cfg, s);
    ComponentSteps.StopAwaitingOk(s.hs);
    HandshakeChangeOk(cfg, s, StopAwaiting(s.hs));
    ReportedFrom(cfg, s, s.(hs := StopAwaiting(s.hs)), text);
  }

  /** A handshake message that is answered ends the wait, and with it the retries counted for it. */
  lemma HandshakeAnswered(cfg: Config, s: Service)
    requires s.control
    ensures var t := OnHandshake(cfg, s, SentOk);
            && t == s.(hs := t.hs) && !t.hs.awaiting
            && t.hs.retries == (if s.hs.awaiting then 0 else s.hs.retries)
  {
  }

  /** So does a discovery request. */
  lemma DiscoveryAnswered(cfg: Config, s: Service)
    requires s.control
    ensures var t := OnDiscoveryRequest(cfg, s);
            && t == s.(hs := t.hs, proj := t.proj) && !t.hs.awaiting
            && t.hs.retries == (if s.hs.awaiting then 0 else s.hs.retries)
  {
    hide Ready;
  }
}
