/** What the session store shows in every reachable state, and what a second connection does to it. */
module SessionRows {
  import opened ServiceState
  import opened Wrappers
  import opened ServiceSteps
  import opened ServiceEvents
  import opened ServiceInvariants
  import opened SessionLifecycle
  import opened ServiceProofs
  import opened ServiceTheorems
  import opened LoneChain
  import opened TwoChains

  // ----- what the rows read -----

  lemma {:induction false} UnwrittenReadsEnded(log: StoreLog, id: nat)
    requires Orderly(log) && !Created(log, id)
    ensures StoredState(log, id) == Ended
  {
    if log.Write? {
      assert log.op.id != id;
      UnwrittenReadsEnded(log.past, id);
    }
  }

  /** In every reachable state the current row reads "active" exactly while its heartbeat runs and
      "negotiating" otherwise, and every other row reads "ended": none ever reads "error". */
  lemma RowsReadTheirState(cfg: Config, s: Service, id: nat)
    requires Reachable(cfg, s)
    ensures StoredState(s.sess.log, id) ==
            if s.sess.current != Some(id) then Ended else if s.sess.heartbeat then Active else Negotiating
    ensures StoredState(s.sess.log, id) != Errored
  {
    ReachableOk(cfg, s);
    assert RowOk(s.sess, id);
    if s.sess.current != Some(id) {
      if Created(s.sess.log, id) {
        EndedRowsReadEnded(s.sess.log, id);
      } else {
        UnwrittenReadsEnded(s.sess.log, id);
      }
    }
  }

  /** The writes of a store history, oldest first. */
  function Ops(log: StoreLog): seq<StoreOp> {
    match log
    case NoWrites => []
    case Write(past, op) => Ops(past) + [op]
  }

  lemma {:induction false} EndedInOps(log: StoreLog, i: nat)
    requires i < |Ops(log)| && Ops(log)[i].EndRow?
    ensures EndCount(log, Ops(log)[i].id) > 0
  {
    if i < |Ops(log.past)| {
      EndedInOps(log.past, i);
    }
  }

  lemma {:induction false} OrderlyOps(log: StoreLog, i: nat, j: nat)
    requires Orderly(log) && i < j < |Ops(log)| && Ops(log)[i].EndRow?
    ensures Ops(log)[j].id != Ops(log)[i].id
  {
    if j < |Ops(log.past)| {
      OrderlyOps(log.past, i, j);
    } else {
      EndedInOps(log.past, i);
    }
  }

  /** In every reachable state no write to the store follows the end of the session it names. */
  lemma NothingWrittenAfterEnd(cfg: Config, s: Service)
    requires Reachable(cfg, s)
    ensures var ops := Ops(s.sess.log);
            forall i, j :: 0 <= i < j < |ops| && ops[i].EndRow? ==> ops[j].id != ops[i].id
  {
    ReachableOk(cfg, s);
    var ops := Ops(s.sess.log);
    forall i, j | 0 <= i < j < |ops| && ops[i].EndRow? ensures ops[j].id != ops[i].id {
      OrderlyOps(s.sess.log, i, j);
    }
  }

  // ----- a second connection -----

  /** What handleConnectionEstablished makes of the session. */
  function Reconnected(conn: ConnectionState, sess: Sessions): Sessions {
    if conn == Connected then CreateSession(sess) else FollowConnection(CreateSession(sess), Connected)
  }

  lemma SessionOfEstablished(cfg: Config, s: Service, delay: nat)
    ensures var t := Established(cfg, s, delay);
            t.conn == Connected && t.sess == Reconnected(s.conn, s.sess)
  {
    hide ResetProjection, StartRequests, CreateSession, FollowConnection, Ready;
    ResetFrame(cfg, s, true);
    StartRequestsFrame(cfg, ResetProjection(cfg, s, true), delay);
  }

  /** A session is begun with its heartbeat running, and its row "active", exactly when the service
      was not CONNECTED before; the session it replaces ends, once. */
  ghost predicate BegunFrom(conn: ConnectionState, sess: Sessions, begun: Sessions) {
    && begun.state == Active && begun.current == Some(sess.nextId) && begun.current != sess.current
    && (begun.heartbeat <==> conn != Connected)
    && StoredState(begun.log, sess.nextId) == (if conn != Connected then Active else Negotiating)
    && (sess.current.Some? ==> EndCount(begun.log, sess.current.value) == 1)
  }

  lemma ReconnectedBegins(conn: ConnectionState, sess: Sessions)
    requires SessionOk(conn, sess)
    requires conn != Authenticating && conn != Securing && conn != Disconnecting
    ensures BegunFrom(conn, sess, Reconnected(conn, sess))
  {
    BegunRow(sess);
    var created, begun := CreateSession(sess), Reconnected(conn, sess);
    if sess.current.Some? {
      assert EndCount(begun.log, sess.current.value) == EndCount(created.log, sess.current.value);
    }
    EstablishOk(conn, sess);
    hide StoreOk, CreateSession;
  }

  lemma BegunRow(sess: Sessions)
    requires StoreOk(sess)
    ensures var created := CreateSession(sess);
            && created.state == sess.state && created.current == Some(sess.nextId) && !created.heartbeat
            && sess.current != Some(sess.nextId)
            && (sess.current.Some? ==> EndCount(created.log, sess.current.value) == 1)
  {
    CreateSessionOk(sess);
    assert RowOk(sess, sess.nextId);
    if sess.current.Some? {
      assert RowOk(sess, sess.current.value);
    }
  }

  /** Every connection that is established, by whatever event. */
  lemma HeartbeatRunsIff(cfg: Config, s: Service, delay: nat)
    requires Reachable(cfg, s)
    ensures Established(cfg, s, delay).conn == Connected
    ensures BegunFrom(s.conn, s.sess, Established(cfg, s, delay).sess)
  {
    ReachableOk(cfg, s);
    ReachableRests(cfg, s);
    hide Reachable, Established, RestOk, Reconnected, BegunFrom;
    SessionOfEstablished(cfg, s, delay);
    ReconnectedBegins(s.conn, s.sess);
  }

  lemma SetupChannelsFrame(s: Service, setup: Setup)
    ensures var t := SetupChannels(s, setup); t.conn == s.conn && t.sess == s.sess
  {
  }

  /** The accept of an earlier search, coming in: in any state it connects, and the heartbeat of
      the new session runs exactly when the service was not CONNECTED already. */
  lemma AcceptedHeartbeatIff(cfg: Config, s: Service, setup: Setup, delay: nat)
    requires Reachable(cfg, s) && s.search.accepts > 0
    ensures OnTcpAccepted(cfg, s, true, setup, delay).conn == Connected
    ensures BegunFrom(s.conn, s.sess, OnTcpAccepted(cfg, s, true, setup, delay).sess)
  {
    ReachableOk(cfg, s);
    ReachableRests(cfg, s);
    hide Reachable, Established, RestOk, SetupChannels, Reconnected, BegunFrom;
    var taken := s.(search := s.search.(accepts := s.search.accepts - 1));
    SetupChannelsFrame(taken, setup);
    SessionOfEstablished(cfg, SetupChannels(taken, setup), delay);
    ReconnectedBegins(s.conn, s.sess);
  }

  // ----- a run to it -----

  lemma ListenFromDown(cfg: Config, s: Service) returns (t: Service)
    requires Reachable(cfg, s) && cfg.wireless && Down(s)
    ensures Reachable(cfg, t) && t.initialised && t.conn == Searching && t.search.accepts > 0
  {
    hide Reachable, ResetProjection, TransitionTo;
    TransitionFrame(cfg, SetupAasdk(s, true).(initialised := true), Disconnected);
    StepIsReachable(cfg, s, Called(InitialiseCall(true)));
    var ready := Step(cfg, s, Called(InitialiseCall(true)));
    ResetFrame(cfg, ready.(deviceGone := false), false);
    var reset := ResetProjection(cfg, ready.(deviceGone := false), false);
    TransitionFrame(cfg, reset, Connecting);
    TransitionFrame(cfg, Listening(TransitionTo(cfg, reset, Connecting)), Searching);
    StepIsReachable(cfg, ready, Called(StartSearchingCall(Listen(true))));
    t := Step(cfg, ready, Called(StartSearchingCall(Listen(true))));
  }

  lemma StopListening(cfg: Config, s: Service) returns (t: Service)
    requires Reachable(cfg, s) && s.initialised && s.conn == Searching && s.search.accepts > 0
    ensures Reachable(cfg, t) && t.initialised && t.conn == Disconnected && t.search.accepts > 0
  {
    hide Reachable, ResetProjection, TransitionTo;
    ResetFrame(cfg, HubStopped(s), false);
    TransitionFrame(cfg, ResetProjection(cfg, HubStopped(s), false), Disconnected);
    StepIsReachable(cfg, s, Called(StopSearchingCall));
    t := Step(cfg, s, Called(StopSearchingCall));
  }

  lemma ConnectOutbound(cfg: Config, s: Service) returns (t: Service)
    requires Reachable(cfg, s) && cfg.wireless && s.initialised && s.conn == Disconnected && s.search.accepts > 0
    ensures Reachable(cfg, t) && t.conn == Connected && t.search.accepts > 0
  {
    hide Reachable, ResetProjection, TransitionTo, StartRequests, CreateSession, Ready;
    var call := StartSearchingCall(Outbound(true, Built, 500));
    StepIsReachable(cfg, s, Called(call));
    t := Step(cfg, s, Called(call));
    var reset := ResetProjection(cfg, s.(deviceGone := false), false);
    ResetFrame(cfg, s.(deviceGone := false), false);
    TransitionFrame(cfg, reset, Connecting);
    var connecting := SetupChannels(TransitionTo(cfg, reset, Connecting), Built);
    ResetFrame(cfg, connecting, true);
    var established := ResetProjection(cfg, connecting, true);
    StartRequestsFrame(cfg, established, 500);
    TransitionFrame(cfg, BeginSession(StartRequests(cfg, established, 500)), Connected);
  }

  /** Over Wi-Fi: listen, stop searching, connect to the phone outbound once its address is known.
      Then the phone calls in on the socket of the first search. */
  lemma SecondConnectionLosesHeartbeat(cfg: Config)
    requires ValidConfig(cfg) && cfg.wireless
    ensures exists s :: Reachable(cfg, s) && s.conn == Connected && s.sess.state == Active && s.sess.current.Some?
                        && !s.sess.heartbeat && StoredState(s.sess.log, s.sess.current.value) == Negotiating
  {
    InitialIsReachable(cfg, 1);
    InitialIsDown(cfg);
    hide Reachable, Initial, Down, OnTcpAccepted;
    var listening := ListenFromDown(cfg, Initial(cfg, 1));
    var idle := StopListening(cfg, listening);
    var connected := ConnectOutbound(cfg, idle);
    var accept := TcpAccepted(true, Built, 500);
    StepIsReachable(cfg, connected, Arrived(accept));
    AcceptedHeartbeatIff(cfg, connected, Built, 500);
    assert Step(cfg, connected, Arrived(accept)) == OnTcpAccepted(cfg, connected, true, Built, 500);
  }
}
