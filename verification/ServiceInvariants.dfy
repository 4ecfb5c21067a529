/** What every reachable state satisfies, component by component. */
module ServiceInvariants {
  import opened ServiceState
  import opened Wrappers
  import H264

  // ----- sessions -----

  predicate Created(log: StoreLog, id: nat) {
    match log
    case NoWrites => false
    case Write(past, op) => op == CreateRow(id) || Created(past, id)
  }

  function EndCount(log: StoreLog, id: nat): nat {
    match log
    case NoWrites => 0
    case Write(past, op) => EndCount(past, id) + if op == EndRow(id) then 1 else 0
  }

  /** Every row is created once, before any other write, and never written after its end. */
  predicate Orderly(log: StoreLog) {
    match log
    case NoWrites => true
    case Write(past, op) =>
      && Orderly(past) && EndCount(past, op.id) == 0
      && (op.CreateRow? <==> !Created(past, op.id))
  }

  /** The state column of a row as the store last left it; ending a row stores "ended". */
  function StoredState(log: StoreLog, id: nat): SessionState {
    match log
    case NoWrites => Ended
    case Write(past, op) =>
      match op
      case CreateRow(q) => if q == id then Negotiating else StoredState(past, id)
      case UpdateRow(q, state) => if q == id then state else StoredState(past, id)
      case Beat(q) => StoredState(past, id)
      case EndRow(q) => if q == id then Ended else StoredState(past, id)
  }

  /** A stored session is open from its creation until its end. */
  predicate Open(log: StoreLog, id: nat) {
    Created(log, id) && EndCount(log, id) == 0
  }

  predicate RowOk(sess: Sessions, id: nat) {
    && (Created(sess.log, id) ==> id < sess.nextId)
    && (EndCount(sess.log, id) > 0 ==> Created(sess.log, id))
    && EndCount(sess.log, id) <= 1
    && (Open(sess.log, id) <==> sess.current == Some(id))
  }

  /** The store agrees with the current session id: it is the one open session. */
  ghost predicate StoreOk(sess: Sessions) {
    && Orderly(sess.log)
    && (forall id: nat :: RowOk(sess, id))
    && (sess.heartbeat ==> sess.state == Active && sess.current.Some?)
  }

  /** The current row reads "active" exactly while its heartbeat runs, and "negotiating" otherwise. */
  predicate RowStateOk(sess: Sessions) {
    sess.current.Some? ==>
      StoredState(sess.log, sess.current.value) == if sess.heartbeat then Active else Negotiating
  }

  predicate StatesAgree(conn: ConnectionState, sess: Sessions) {
    && (sess.state == Ended || sess.state == Errored ==> sess.current.None?)
    && sess.state != Suspended
    && match conn
       case Disconnected => sess.state == Ended || sess.state == Errored
       case Searching => sess.current.None? && sess.state != Active
       case Connecting => sess.state == Negotiating
       case Authenticating => sess.state == Negotiating
       case Securing => sess.state == Negotiating
       case Connected => sess.state == Active && sess.current.Some?
       case Disconnecting => true
       case Failed => sess.state == Errored
  }

  ghost predicate SessionOk(conn: ConnectionState, sess: Sessions) {
    StoreOk(sess) && StatesAgree(conn, sess) && RowStateOk(sess)
  }

  // ----- readiness -----

  /** note occurred since the last reset. */
  predicate SinceReset(notes: Notes, note: Note) {
    match notes
    case NoNotes => false
    case Noted(past, n) => n == note || (!n.ResetNote? && SinceReset(past, note))
  }

  /** The video stream was started since the last reset, and neither stopped nor failed since. */
  predicate Running(notes: Notes) {
    match notes
    case NoNotes => false
    case Noted(past, n) =>
      n.StartedNote? || (!n.StoppedNote? && !n.VideoErrorNote? && !n.ResetNote? && Running(past))
  }

  /** A frame was accepted since the last reset and the last stop. */
  predicate Framed(notes: Notes) {
    match notes
    case NoNotes => false
    case Noted(past, n) => n.FrameNote? || (!n.StoppedNote? && !n.ResetNote? && Framed(past))
  }

  /** Some connection-established reset has happened. */
  predicate EverEstablished(notes: Notes) {
    match notes
    case NoNotes => false
    case Noted(past, n) => n == ResetNote(true) || EverEstablished(past)
  }

  /** In H.264 passthrough every accepted frame carries a slice. */
  predicate FramesCarrySlices(cfg: Config, notes: Notes) {
    match notes
    case NoNotes => true
    case Noted(past, n) => FramesCarrySlices(cfg, past) && (cfg.h264 && n.FrameNote? ==> H264.HasVcl(n.data))
  }

  /** What has to have happened before readiness may be announced. */
  predicate Justified(cfg: Config, notes: Notes) {
    && EverEstablished(notes) && SinceReset(notes, VersionNote) && SinceReset(notes, DiscoveryNote)
    && (cfg.videoEnabled ==>
          && SinceReset(notes, OpenedNote) && SinceReset(notes, ConfiguredNote)
          && Running(notes) && Framed(notes))
  }

  /** Every announcement of readiness in the history was justified when it was made. */
  predicate AnnouncementsJustified(cfg: Config, notes: Notes) {
    match notes
    case NoNotes => true
    case Noted(past, n) => AnnouncementsJustified(cfg, past) && (n == PublishedNote(true) ==> Justified(cfg, past))
  }

  predicate FlagsMatch(proj: Projection) {
    && proj.version == SinceReset(proj.notes, VersionNote)
    && proj.discovery == SinceReset(proj.notes, DiscoveryNote)
    && proj.channelOpen == SinceReset(proj.notes, OpenedNote)
    && proj.configured == SinceReset(proj.notes, ConfiguredNote)
    && proj.started == Running(proj.notes)
    && proj.frame == Framed(proj.notes)
  }

  predicate ProjectionOk(cfg: Config, conn: ConnectionState, proj: Projection) {
    && FlagsMatch(proj)
    && (conn == Connected ==> EverEstablished(proj.notes))
    && FramesCarrySlices(cfg, proj.notes)
    && AnnouncementsJustified(cfg, proj.notes)
  }

  // ----- handshake watchdog -----

  function RetryCount(log: HandshakeLog, response: nat): nat {
    match log
    case NoHandshake => 0
    case Happened(past, n) => RetryCount(past, response) + if n == RetrySent(response) then 1 else 0
  }

  function TimeoutCount(log: HandshakeLog, response: nat): nat {
    match log
    case NoHandshake => 0
    case Happened(past, n) => TimeoutCount(past, response) + if n == TimedOut(response) then 1 else 0
  }

  /** Since the given version response: no handshake message, discovery request, projection
      reset, control error or further version response. */
  predicate QuietSince(log: HandshakeLog, response: nat) {
    match log
    case NoHandshake => false
    case Happened(past, n) =>
      n == Armed(response) || (!n.Armed? && !n.Cleared? && QuietSince(past, response))
  }

  predicate TimeoutsWereQuiet(log: HandshakeLog) {
    match log
    case NoHandshake => true
    case Happened(past, n) => TimeoutsWereQuiet(past) && (n.TimedOut? ==> QuietSince(past, n.response))
  }

  ghost predicate WatchdogsOk(hs: Handshake) {
    && (forall w :: w in hs.watchdogs ==> w.epoch <= hs.epoch && w.response < hs.responses)
    && (forall w, v :: w in hs.watchdogs && v in hs.watchdogs && w != v ==>
          w.epoch != v.epoch && w.response != v.response)
    && (forall w :: w in hs.watchdogs && hs.awaiting && w.epoch == hs.epoch ==> QuietSince(hs.log, w.response))
  }

  predicate ResponseOk(hs: Handshake, r: nat) {
    && RetryCount(hs.log, r) <= 1 && TimeoutCount(hs.log, r) <= 1
    && (r >= hs.responses ==> RetryCount(hs.log, r) == 0 && TimeoutCount(hs.log, r) == 0)
  }

  ghost predicate CountsOk(hs: Handshake) {
    && (forall r: nat :: ResponseOk(hs, r))
    && (forall w :: w in hs.watchdogs ==> TimeoutCount(hs.log, w.response) == 0)
    && (forall w :: w in hs.watchdogs && !w.second ==> RetryCount(hs.log, w.response) == 0)
  }

  ghost predicate HandshakeOk(hs: Handshake) {
    WatchdogsOk(hs) && CountsOk(hs) && TimeoutsWereQuiet(hs.log)
  }

  // ----- version requests -----

  function SendCount(sends: Sends, chain: nat, window: nat): nat {
    match sends
    case NoSends => 0
    case Sent(past, c, at, w) => SendCount(past, chain, window) + if c == chain && w == window then 1 else 0
  }

  predicate EverSent(sends: Sends, chain: nat) {
    match sends
    case NoSends => false
    case Sent(past, c, at, w) => c == chain || EverSent(past, chain)
  }

  /** The time of a chain's last send. */
  function LastSend(sends: Sends, chain: nat): nat {
    match sends
    case NoSends => 0
    case Sent(past, c, at, w) => if c == chain then at else LastSend(past, chain)
  }

  /** Consecutive sends of one chain are at least 250 ms apart. */
  predicate Spaced(sends: Sends) {
    match sends
    case NoSends => true
    case Sent(past, c, at, w) => Spaced(past) && (EverSent(past, c) ==> at >= LastSend(past, c) + 250)
  }

  predicate TokenOk(ver: Requests, t: Token) {
    && t.chain < ver.chains
    && match t
       case InFlight(c) => EverSent(ver.sends, c)
       case Waiting(c, due, initial) =>
         if initial then !EverSent(ver.sends, c) else EverSent(ver.sends, c) && due >= LastSend(ver.sends, c) + 250
  }

  ghost predicate TokensOk(ver: Requests) {
    && (forall t :: t in ver.tokens ==> TokenOk(ver, t))
    && (forall t, u :: t in ver.tokens && u in ver.tokens && t.chain == u.chain ==> t == u)
  }

  predicate ChainOk(cfg: Config, now: nat, ver: Requests, c: nat) {
    && (EverSent(ver.sends, c) ==> c < ver.chains)
    && LastSend(ver.sends, c) <= now
    && (SendCount(ver.sends, c, ver.window) > 0 ==>
          && ver.first > 0
          && ver.first + 250 * (SendCount(ver.sends, c, ver.window) - 1) <= LastSend(ver.sends, c)
          && LastSend(ver.sends, c) <= ver.first + cfg.recoveryWindowMs)
  }

  predicate CountOk(cfg: Config, ver: Requests, c: nat, w: nat) {
    && SendCount(ver.sends, c, w) <= cfg.recoveryWindowMs / 250 + 1
    && (SendCount(ver.sends, c, w) > 0 ==> w <= ver.window && EverSent(ver.sends, c))
  }

  ghost predicate WindowOk(cfg: Config, now: nat, ver: Requests) {
    && ver.first <= now
    && (forall c: nat :: ChainOk(cfg, now, ver, c))
    && (forall c: nat, w: nat :: CountOk(cfg, ver, c, w))
  }

  ghost predicate RequestsOk(cfg: Config, now: nat, ver: Requests) {
    now > 0 && TokensOk(ver) && WindowOk(cfg, now, ver) && Spaced(ver.sends)
  }

  // ----- USB search -----

  predicate AttachedWith(log: Attachments, generation: nat) {
    match log
    case NoAttachments => false
    case Attached(past, g) => g == generation || AttachedWith(past, generation)
  }

  /** No generation attached twice. */
  predicate AttachedOnce(log: Attachments) {
    match log
    case NoAttachments => true
    case Attached(past, g) => AttachedOnce(past) && !AttachedWith(past, g)
  }

  ghost predicate SearchOk(cfg: Config, conn: ConnectionState, search: Search) {
    && (forall p :: p in search.promises ==> p.generation <= search.generation && p.serial < search.issued)
    && (forall p, q :: p in search.promises && q in search.promises && p.serial == q.serial ==> p == q)
    && (forall p, q :: p in search.promises && q in search.promises ==>
          p.generation == q.generation == search.generation ==> p == q)
    && (conn == Searching && !search.hubStarted ==>
          (forall p :: p in search.promises ==> p.generation != search.generation)
          && !AttachedWith(search.attachments, search.generation))
    && (forall p :: p in search.promises && p.generation == search.generation ==>
          !AttachedWith(search.attachments, p.generation))
    && (forall g: nat :: AttachedWith(search.attachments, g) ==> g <= search.generation)
    && AttachedOnce(search.attachments)
    && (cfg.wireless ==> search.startupTimers == 0 && search.promises == {})
    && (cfg.wireless ==> search.attachments == NoAttachments)
    && (!cfg.wireless ==> search.accepts == 0)
  }

  // ----- pre-handshake grace window -----

  /** Errors counted since the current window was opened. */
  function ErrorsInWindow(log: GraceLog): nat {
    match log
    case NoGrace => 0
    case Recorded(past, n) =>
      match n
      case WindowOpened(_) => 0
      case Forgotten => 0
      case CountedError(_) => ErrorsInWindow(past) + 1
      case Escalated(_) => ErrorsInWindow(past)
  }

  /** When the current window was opened; 0 when none is open. */
  function WindowStart(log: GraceLog): nat {
    match log
    case NoGrace => 0
    case Recorded(past, n) =>
      match n
      case WindowOpened(at) => at
      case Forgotten => 0
      case CountedError(_) => WindowStart(past)
      case Escalated(_) => WindowStart(past)
  }

  /** Every error was counted inside the window open at the time, and an error escalated only
      when more than the maximum fell into that one window. */
  predicate GraceHistoryOk(cfg: Config, log: GraceLog) {
    match log
    case NoGrace => true
    case Recorded(past, n) =>
      && GraceHistoryOk(cfg, past)
      && match n
         case CountedError(at) =>
           WindowStart(past) > 0 && WindowStart(past) <= at <= WindowStart(past) + cfg.graceWindowMs
         case Escalated(at) => ErrorsInWindow(past) > cfg.graceMaxErrors
         case WindowOpened(at) => WindowStart(past) == 0 || at > WindowStart(past) + cfg.graceWindowMs
         case Forgotten => true
  }

  predicate GraceOk(cfg: Config, now: nat, grace: Grace) {
    && grace.errors == ErrorsInWindow(grace.log)
    && grace.start == WindowStart(grace.log)
    && grace.start <= now
    && GraceHistoryOk(cfg, grace.log)
  }

  // ----- all together -----

  /** Everything but the sessions. */
  ghost predicate RestOk(cfg: Config, s: Service) {
    && ProjectionOk(cfg, s.conn, s.proj)
    && HandshakeOk(s.hs)
    && RequestsOk(cfg, s.now, s.ver)
    && SearchOk(cfg, s.conn, s.search)
    && GraceOk(cfg, s.now, s.grace)
  }

  ghost predicate Inv(cfg: Config, s: Service) {
    SessionOk(s.conn, s.sess) && RestOk(cfg, s)
  }
}
