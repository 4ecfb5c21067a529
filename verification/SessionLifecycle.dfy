/** Sessions: the lifecycle proofs. */
module SessionLifecycle {
  import opened ServiceState
  import opened Wrappers
  import opened ServiceSteps
  import opened ServiceInvariants

  lemma EndCurrentOk(sess: Sessions)
    requires StoreOk(sess)
    ensures StoreOk(EndCurrent(sess)) && EndCurrent(sess).current.None? && !EndCurrent(sess).heartbeat
    ensures EndCurrent(sess).state == sess.state
  {
    var ended := EndCurrent(sess);
    if sess.current.Some? {
      assert RowOk(sess, sess.current.value);
      forall id: nat ensures RowOk(ended, id) {
        assert RowOk(sess, id);
      }
    }
  }

  lemma HeartbeatOk(sess: Sessions)
    requires StoreOk(sess)
    ensures StoreOk(Heartbeat(sess))
    ensures Heartbeat(sess).(log := sess.log) == sess
  {
    if sess.current.Some? && sess.state == Active {
      assert RowOk(sess, sess.current.value);
      forall id: nat ensures RowOk(Heartbeat(sess), id) {
        assert RowOk(sess, id);
      }
    }
  }

  lemma CreateSessionOk(sess: Sessions)
    requires StoreOk(sess)
    ensures StoreOk(CreateSession(sess)) && CreateSession(sess).current.Some?
    ensures CreateSession(sess).state == sess.state && !CreateSession(sess).heartbeat
  {
    EndCurrentOk(sess);
    var ended, created := EndCurrent(sess), CreateSession(sess);
    assert RowOk(ended, ended.nextId);
    forall id: nat ensures RowOk(created, id) {
      assert RowOk(ended, id);
    }
  }

  /** Writing the new state of the current row keeps the store in order. */
  lemma UpdateOk(sess: Sessions, state: SessionState)
    requires StoreOk(sess) && sess.current.Some?
    ensures StoreOk(Log(sess, UpdateRow(sess.current.value, state)))
  {
    assert RowOk(sess, sess.current.value);
    forall id: nat ensures RowOk(Log(sess, UpdateRow(sess.current.value, state)), id) {
      assert RowOk(sess, id);
    }
  }

  lemma EnterSessionOk(sess: Sessions, state: SessionState)
    requires StoreOk(sess) && state != Suspended
    requires state == Active ==> sess.current.Some?
    requires sess.state == Ended || sess.state == Errored ==> sess.current.None? || state != sess.state
    ensures var entered := EnterSession(sess, state);
            && StoreOk(entered) && entered.state == state
            && entered.current == if state == Ended || state == Errored then None else sess.current
  {
    hide StoreOk, Heartbeat, EndCurrent;
    if sess.state != state {
      var silent := sess.(heartbeat := false);
      SilencedOk(sess, sess.state);
      SilencedOk(sess, state);
      var quiet := silent.(state := state);
      if sess.current.Some? {
        UpdateOk(quiet, state);
      }
      var stored := if sess.current.Some? then Log(quiet, UpdateRow(sess.current.value, state)) else quiet;
      if state == Active {
        BeatingOk(sess, stored);
      } else {
        if state == Ended || state == Errored {
          EndCurrentOk(stored);
        }
      }
    }
  }

  /** Stopping the heartbeat, and then changing the session state, keeps the store in order. */
  lemma SilencedOk(sess: Sessions, state: SessionState)
    requires StoreOk(sess)
    ensures StoreOk(sess.(heartbeat := false, state := state))
  {
    var silent := sess.(heartbeat := false, state := state);
    forall id: nat ensures RowOk(silent, id) {
      assert RowOk(sess, id);
    }
  }

  lemma BeatingOk(sess: Sessions, stored: Sessions)
    requires StoreOk(sess) && sess.current.Some? && sess.state != Active
    requires stored == Log(sess.(heartbeat := false, state := Active), UpdateRow(sess.current.value, Active))
    requires StoreOk(stored)
    ensures var entered := EnterSession(sess, Active);
            StoreOk(entered) && entered.state == Active && entered.current == sess.current
  {
    var beating := stored.(heartbeat := true);
    forall id: nat ensures RowOk(beating, id) {
      assert RowOk(stored, id);
    }
    HeartbeatOk(beating);
  }

  /** Entering a state keeps the row of the current session in step with its heartbeat. */
  lemma EnterKeepsRowState(sess: Sessions, state: SessionState)
    requires StoreOk(sess) && RowStateOk(sess) && state != Suspended
    ensures RowStateOk(EnterSession(sess, state))
  {
  }

  lemma HeartbeatKeepsRowState(sess: Sessions)
    requires RowStateOk(sess)
    ensures RowStateOk(Heartbeat(sess))
  {
  }

  lemma CreateKeepsRowState(sess: Sessions)
    requires StoreOk(sess)
    ensures RowStateOk(CreateSession(sess))
  {
  }

  /** The session side of every transition except into CONNECTED or SEARCHING. */
  lemma FollowOk(conn: ConnectionState, sess: Sessions, next: ConnectionState)
    requires SessionOk(conn, sess) && next != Connected && next != Searching
    ensures SessionOk(next, FollowConnection(sess, next))
    ensures next == Connecting && conn == Disconnected ==> FollowConnection(sess, next).current.None?
  {
    hide StoreOk, EnterSession, RowStateOk;
    EnterKeepsRowState(sess, Negotiating);
    EnterKeepsRowState(sess, Ended);
    EnterKeepsRowState(sess, Errored);
    match next
    case Connecting => EnterSessionOk(sess, Negotiating);
    case Authenticating => EnterSessionOk(sess, Negotiating);
    case Securing => EnterSessionOk(sess, Negotiating);
    case Disconnected => if sess.state == Active || sess.state == Negotiating { EnterSessionOk(sess, Ended); }
    case Failed => EnterSessionOk(sess, Errored);
    case Disconnecting =>
  }

  /** handleConnectionEstablished: whatever came before, CONNECTED has an active, open session. */
  lemma EstablishOk(conn: ConnectionState, sess: Sessions)
    requires SessionOk(conn, sess)
    ensures var created := CreateSession(sess);
            SessionOk(Connected, if conn == Connected then created else FollowConnection(created, Connected))
  {
    hide StoreOk, EnterSession, CreateSession, RowStateOk;
    CreateSessionOk(sess);
    CreateKeepsRowState(sess);
    EnterKeepsRowState(CreateSession(sess), Active);
    if conn != Connected {
      EnterSessionOk(CreateSession(sess), Active);
    }
  }

  // ----- what the store records -----

  /** Whatever state a session ended in, its row reads "ended": the state written on entering
      ERROR is overwritten at once by the end of the session. */
  lemma {:induction false} EndedRowsReadEnded(log: StoreLog, id: nat)
    requires Orderly(log) && EndCount(log, id) > 0
    ensures StoredState(log, id) == Ended
  {
    if log.Write? && log.op != EndRow(id) {
      EndedRowsReadEnded(log.past, id);
      assert log.op.id != id;
    }
  }

  /** Whenever a connection fails, the row of its session ends up "ended", not "error". */
  lemma FailureIsStoredAsEnded(conn: ConnectionState, sess: Sessions)
    requires SessionOk(conn, sess) && sess.current.Some?
    ensures StoredState(FollowConnection(sess, Failed).log, sess.current.value) == Ended
    ensures EndCount(FollowConnection(sess, Failed).log, sess.current.value) == 1
  {
    assert RowOk(sess, sess.current.value);
  }
}
