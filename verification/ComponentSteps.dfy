/** How each elementary update keeps the invariant of its component. */
module ComponentSteps {
  import opened ServiceState
  import opened ServiceSteps
  import opened ServiceEvents
  import opened ServiceInvariants
  import H264

  // ----- readiness -----

  lemma PublishNoteOk(cfg: Config, conn: ConnectionState, proj: Projection)
    requires ProjectionOk(cfg, conn, proj)
    ensures ProjectionOk(cfg, conn, AddNote(proj, PublishedNote(Ready(cfg, conn, proj))))
  {
  }

  lemma ClearFlagsOk(cfg: Config, conn: ConnectionState, proj: Projection, established: bool)
    requires ProjectionOk(cfg, conn, proj)
    ensures ProjectionOk(cfg, conn, ClearFlags(proj, established))
    ensures established || EverEstablished(proj.notes) ==> EverEstablished(ClearFlags(proj, established).notes)
  {
  }

  lemma StopStreamOk(cfg: Config, conn: ConnectionState, proj: Projection, source: Source)
    requires ProjectionOk(cfg, conn, proj)
    ensures ProjectionOk(cfg, conn, StopStream(proj, source))
  {
  }

  lemma VersionKnownOk(cfg: Config, conn: ConnectionState, proj: Projection)
    requires ProjectionOk(cfg, conn, proj)
    ensures ProjectionOk(cfg, conn, AddNote(proj.(version := true), VersionNote))
  {
  }

  lemma DiscoveryKnownOk(cfg: Config, conn: ConnectionState, proj: Projection)
    requires ProjectionOk(cfg, conn, proj)
    ensures ProjectionOk(cfg, conn, AddNote(proj.(discovery := true), DiscoveryNote))
  {
  }

  lemma OpenedOk(cfg: Config, conn: ConnectionState, proj: Projection)
    requires ProjectionOk(cfg, conn, proj)
    ensures ProjectionOk(cfg, conn, AddNote(proj.(channelOpen := true), OpenedNote))
  {
  }

  lemma ConfiguredOk(cfg: Config, conn: ConnectionState, proj: Projection)
    requires ProjectionOk(cfg, conn, proj)
    ensures ProjectionOk(cfg, conn, AddNote(proj.(configured := true), ConfiguredNote))
  {
  }

  lemma StartedOk(cfg: Config, conn: ConnectionState, proj: Projection)
    requires ProjectionOk(cfg, conn, proj)
    ensures ProjectionOk(cfg, conn, AddNote(proj.(started := true), StartedNote))
  {
  }

  lemma StoppedOk(cfg: Config, conn: ConnectionState, proj: Projection)
    requires ProjectionOk(cfg, conn, proj)
    ensures ProjectionOk(cfg, conn, AddNote(proj.(started := false, frame := false), StoppedNote))
  {
  }

  lemma AudioOk(cfg: Config, conn: ConnectionState, proj: Projection, started: bool)
    requires ProjectionOk(cfg, conn, proj)
    ensures ProjectionOk(cfg, conn, proj.(audioStarted := started))
  {
  }

  lemma FrameOk(cfg: Config, conn: ConnectionState, proj: Projection, data: seq<Bytes.byte>)
    requires ProjectionOk(cfg, conn, proj) && (cfg.h264 ==> H264.HasVcl(data))
    ensures ProjectionOk(cfg, conn, AddNote(proj.(frame := true), FrameNote(data)))
  {
  }

  // ----- handshake watchdog -----

  lemma OutdateOk(hs: Handshake)
    requires HandshakeOk(hs)
    ensures HandshakeOk(Outdate(hs))
  {
    forall r: nat ensures ResponseOk(Outdate(hs), r) {
      assert ResponseOk(hs, r);
    }
  }

  lemma StopAwaitingOk(hs: Handshake)
    requires HandshakeOk(hs)
    ensures HandshakeOk(StopAwaiting(hs))
  {
    forall r: nat ensures ResponseOk(StopAwaiting(hs), r) {
      assert ResponseOk(hs, r);
    }
  }

  lemma RetriesOk(hs: Handshake, retries: nat)
    requires HandshakeOk(hs)
    ensures HandshakeOk(hs.(retries := retries)) && HandshakeOk(hs.(awaiting := false))
  {
    forall r: nat ensures ResponseOk(hs.(retries := retries), r) && ResponseOk(hs.(awaiting := false), r) {
      assert ResponseOk(hs, r);
    }
  }

  lemma ArmOk(s: Service)
    requires HandshakeOk(s.hs)
    ensures HandshakeOk(ArmWatchdog(s).hs)
  {
    var hs, armed := s.hs, ArmWatchdog(s).hs;
    assert ResponseOk(hs, hs.responses);
    forall r: nat ensures ResponseOk(armed, r) {
      assert ResponseOk(hs, r);
    }
  }

  lemma FiredOk(hs: Handshake, w: Watchdog)
    requires HandshakeOk(hs)
    ensures HandshakeOk(hs.(watchdogs := hs.watchdogs - {w}))
  {
    forall r: nat ensures ResponseOk(hs.(watchdogs := hs.watchdogs - {w}), r) {
      assert ResponseOk(hs, r);
    }
  }

  /** The retry of a first watchdog: its response has no other timer and has not been retried. */
  lemma RearmOk(hs: Handshake, w: Watchdog, sent: bool)
    requires HandshakeOk(hs) && w in hs.watchdogs && !w.second && hs.awaiting && w.epoch == hs.epoch
    ensures var fired := hs.(watchdogs := hs.watchdogs - {w});
            var noted := if sent then LogHandshake(fired, RetrySent(w.response)) else fired;
            HandshakeOk(noted.(epoch := hs.epoch + 1,
                               watchdogs := noted.watchdogs + {Watchdog(hs.epoch + 1, true, w.response)}))
  {
    var fired := hs.(watchdogs := hs.watchdogs - {w});
    var noted := if sent then LogHandshake(fired, RetrySent(w.response)) else fired;
    var rearmed := noted.(epoch := hs.epoch + 1,
                          watchdogs := noted.watchdogs + {Watchdog(hs.epoch + 1, true, w.response)});
    forall r: nat ensures ResponseOk(rearmed, r) {
      assert ResponseOk(hs, r);
    }
  }

  /** The same with the retry counted. */
  lemma RetriedRearmOk(hs: Handshake, w: Watchdog, sent: bool)
    requires HandshakeOk(hs) && w in hs.watchdogs && !w.second && hs.awaiting && w.epoch == hs.epoch
    ensures var fired := hs.(watchdogs := hs.watchdogs - {w}, retries := hs.retries + 1);
            var noted := if sent then LogHandshake(fired, RetrySent(w.response)) else fired;
            HandshakeOk(noted.(epoch := hs.epoch + 1,
                               watchdogs := noted.watchdogs + {Watchdog(hs.epoch + 1, true, w.response)}))
  {
    hide HandshakeOk;
    RetriesOk(hs, hs.retries + 1);
    RearmOk(hs.(retries := hs.retries + 1), w, sent);
  }

  lemma TimeoutOk(hs: Handshake, w: Watchdog)
    requires HandshakeOk(hs) && w in hs.watchdogs && hs.awaiting && w.epoch == hs.epoch
    ensures HandshakeOk(LogHandshake(hs.(watchdogs := hs.watchdogs - {w}, awaiting := false), TimedOut(w.response)))
  {
    var timedOut := LogHandshake(hs.(watchdogs := hs.watchdogs - {w}, awaiting := false), TimedOut(w.response));
    forall r: nat ensures ResponseOk(timedOut, r) {
      assert ResponseOk(hs, r);
    }
  }

  // ----- version requests -----

  lemma ResetRequestsOk(cfg: Config, now: nat, ver: Requests)
    requires RequestsOk(cfg, now, ver)
    ensures RequestsOk(cfg, now, ResetRequests(ver))
  {
    var reset := ResetRequests(ver);
    forall c: nat ensures ChainOk(cfg, now, reset, c) {
      assert ChainOk(cfg, now, ver, c) && CountOk(cfg, ver, c, reset.window);
    }
    forall c: nat, w: nat ensures CountOk(cfg, reset, c, w) {
      assert CountOk(cfg, ver, c, w);
    }
    forall t | t in reset.tokens ensures TokenOk(reset, t) {
      assert TokenOk(ver, t);
    }
  }

  /** Counters that no invariant mentions. */
  lemma CountersOk(cfg: Config, now: nat, ver: Requests, attempts: nat, native2: nat)
    requires RequestsOk(cfg, now, ver)
    ensures RequestsOk(cfg, now, ver.(attempts := attempts, native2 := native2))
  {
    var changed := ver.(attempts := attempts, native2 := native2);
    forall c: nat ensures ChainOk(cfg, now, changed, c) {
      assert ChainOk(cfg, now, ver, c);
    }
    forall c: nat, w: nat ensures CountOk(cfg, changed, c, w) {
      assert CountOk(cfg, ver, c, w);
    }
    forall t | t in changed.tokens ensures TokenOk(changed, t) {
      assert TokenOk(ver, t);
    }
  }

  lemma TimePassesOk(cfg: Config, now: nat, ver: Requests, later: nat)
    requires RequestsOk(cfg, now, ver) && later >= now
    ensures RequestsOk(cfg, later, ver)
  {
    forall c: nat ensures ChainOk(cfg, later, ver, c) {
      assert ChainOk(cfg, now, ver, c);
    }
  }

  lemma DropTokenOk(cfg: Config, now: nat, ver: Requests, t: Token)
    requires RequestsOk(cfg, now, ver)
    ensures RequestsOk(cfg, now, ver.(tokens := ver.tokens - {t}))
  {
    var dropped := ver.(tokens := ver.tokens - {t});
    forall c: nat ensures ChainOk(cfg, now, dropped, c) {
      assert ChainOk(cfg, now, ver, c);
    }
    forall c: nat, w: nat ensures CountOk(cfg, dropped, c, w) {
      assert CountOk(cfg, ver, c, w);
    }
    forall u | u in dropped.tokens ensures TokenOk(dropped, u) {
      assert TokenOk(ver, u);
    }
  }

  /** No token of the chain is pending. */
  predicate Idle(ver: Requests, chain: nat) {
    forall t :: t in ver.tokens ==> t.chain != chain
  }

  lemma AddTokenOk(cfg: Config, now: nat, ver: Requests, t: Token)
    requires RequestsOk(cfg, now, ver) && Idle(ver, t.chain) && TokenOk(ver, t)
    ensures RequestsOk(cfg, now, ver.(tokens := ver.tokens + {t}))
  {
    var added := ver.(tokens := ver.tokens + {t});
    forall c: nat ensures ChainOk(cfg, now, added, c) {
      assert ChainOk(cfg, now, ver, c);
    }
    forall c: nat, w: nat ensures CountOk(cfg, added, c, w) {
      assert CountOk(cfg, ver, c, w);
    }
    forall u | u in added.tokens ensures TokenOk(added, u) {
      assert u in ver.tokens ==> TokenOk(ver, u);
    }
  }

  /** The first request of a window sets its start. */
  lemma OpenWindowOk(cfg: Config, now: nat, ver: Requests)
    requires RequestsOk(cfg, now, ver)
    ensures RequestsOk(cfg, now, ver.(first := if ver.first == 0 then now else ver.first))
  {
    var begun := ver.(first := if ver.first == 0 then now else ver.first);
    forall c: nat ensures ChainOk(cfg, now, begun, c) {
      assert ChainOk(cfg, now, ver, c);
    }
    forall c: nat, w: nat ensures CountOk(cfg, begun, c, w) {
      assert CountOk(cfg, ver, c, w);
    }
    forall t | t in begun.tokens ensures TokenOk(begun, t) {
      assert TokenOk(ver, t);
    }
  }

  /** One more send of a chain that is due, inside the window. */
  lemma SendOk(cfg: Config, now: nat, ver: Requests, chain: nat)
    requires ValidConfig(cfg) && RequestsOk(cfg, now, ver) && Idle(ver, chain) && chain < ver.chains
    requires EverSent(ver.sends, chain) ==> now >= LastSend(ver.sends, chain) + 250
    requires ver.first > 0 && now <= ver.first + cfg.recoveryWindowMs
    ensures RequestsOk(cfg, now, ver.(tokens := ver.tokens + {InFlight(chain)},
                                      sends := Sent(ver.sends, chain, now, ver.window)))
  {
    var sent := ver.(tokens := ver.tokens + {InFlight(chain)}, sends := Sent(ver.sends, chain, now, ver.window));
    assert ChainOk(cfg, now, ver, chain) && CountOk(cfg, ver, chain, ver.window);
    var k := SendCount(ver.sends, chain, ver.window);
    if k > 0 {
      assert 250 * k <= cfg.recoveryWindowMs;
    }
    forall c: nat ensures ChainOk(cfg, now, sent, c) {
      assert ChainOk(cfg, now, ver, c) && CountOk(cfg, ver, c, ver.window);
    }
    forall c: nat, w: nat ensures CountOk(cfg, sent, c, w) {
      assert CountOk(cfg, ver, c, w);
    }
    forall t | t in sent.tokens ensures TokenOk(sent, t) {
      assert t in ver.tokens ==> TokenOk(ver, t);
    }
  }

  lemma NewChainOk(cfg: Config, now: nat, ver: Requests)
    requires RequestsOk(cfg, now, ver)
    ensures RequestsOk(cfg, now, ver.(chains := ver.chains + 1))
    ensures Idle(ver, ver.chains) && !EverSent(ver.sends, ver.chains)
  {
    var more := ver.(chains := ver.chains + 1);
    forall c: nat ensures ChainOk(cfg, now, more, c) {
      assert ChainOk(cfg, now, ver, c);
    }
    forall c: nat, w: nat ensures CountOk(cfg, more, c, w) {
      assert CountOk(cfg, ver, c, w);
    }
    forall t | t in more.tokens ensures TokenOk(more, t) {
      assert TokenOk(ver, t);
    }
    forall t | t in ver.tokens ensures t.chain != ver.chains {
      assert TokenOk(ver, t);
    }
    assert ChainOk(cfg, now, ver, ver.chains);
  }

  // ----- pre-handshake grace window -----

  lemma CountErrorOk(cfg: Config, now: nat, grace: Grace)
    requires GraceOk(cfg, now, grace) && now > 0
    ensures GraceOk(cfg, now, CountError(cfg, grace, now))
    ensures CountError(cfg, grace, now).errors > cfg.graceMaxErrors ==>
              GraceOk(cfg, now, RecordGrace(CountError(cfg, grace, now), Escalated(now)))
  {
  }

  lemma ForgetErrorsOk(cfg: Config, now: nat, grace: Grace)
    requires GraceOk(cfg, now, grace)
    ensures GraceOk(cfg, now, ForgetErrors(grace))
  {
  }
}
