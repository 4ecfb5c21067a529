/**
 The state of RealAndroidAutoService that its connection, session and projection protocol
 works on, component by component. Each component carries the history of what it did
 (newest entry outermost), so that properties of whole runs can be read off a state.
 */
module ServiceState {
  import opened Bytes
  import opened Wrappers

  datatype ConnectionState =
    | Disconnected | Searching | Connecting | Authenticating | Securing | Connected | Disconnecting | Failed

  datatype SessionState = Negotiating | Active | Suspended | Ended | Errored

  /** Configuration values, fixed during a run; the bounds are those of getBoundedConfigValue. */
  datatype Config = Config(
    wireless: bool, videoEnabled: bool, h264: bool,
    handshakeRetries: nat, recoveryWindowMs: nat, versionRetryBaseMs: nat, versionMaxAttempts: nat,
    fastReconnect: bool, native2Threshold: nat, immediateReset: bool,
    graceWindowMs: nat, graceMaxErrors: nat, noDeviceGraceMax: nat)

  predicate ValidConfig(cfg: Config) {
    && cfg.handshakeRetries <= 1
    && 5000 <= cfg.recoveryWindowMs <= 180000
    && 250 <= cfg.versionRetryBaseMs <= 5000
    && 3 <= cfg.versionMaxAttempts <= 30
    && 1 <= cfg.native2Threshold <= 10
    && 1000 <= cfg.graceWindowMs <= 30000
    && 1 <= cfg.graceMaxErrors <= 50
    && cfg.noDeviceGraceMax <= 3
  }

  // ----- sessions and the session store -----

  datatype StoreOp = CreateRow(id: nat) | UpdateRow(id: nat, state: SessionState) | Beat(id: nat) | EndRow(id: nat)

  datatype StoreLog = NoWrites | Write(past: StoreLog, op: StoreOp)

  /** Session ids are drawn from nextId: fresh UUIDs. */
  datatype Sessions = Sessions(state: SessionState, current: Option<nat>, heartbeat: bool, nextId: nat, log: StoreLog)

  // ----- projection readiness -----

  datatype Note =
    | ResetNote(established: bool)
    | VersionNote | DiscoveryNote | OpenedNote | ConfiguredNote | StartedNote | StoppedNote | VideoErrorNote
    | FrameNote(data: seq<byte>)
    | PublishedNote(ready: bool)

  datatype Notes = NoNotes | Noted(past: Notes, note: Note)

  datatype Projection = Projection(
    version: bool, discovery: bool, channelOpen: bool, configured: bool, started: bool, frame: bool,
    audioStarted: bool, notes: Notes)

  // ----- handshake watchdog -----

  /** A pending single-shot timer; response numbers the version response that armed its chain. */
  datatype Watchdog = Watchdog(epoch: nat, second: bool, response: nat)

  datatype HandshakeNote = Armed(response: nat) | Cleared | RetrySent(response: nat) | TimedOut(response: nat)

  datatype HandshakeLog = NoHandshake | Happened(past: HandshakeLog, note: HandshakeNote)

  datatype Handshake = Handshake(
    awaiting: bool, epoch: nat, retries: nat, watchdogs: set<Watchdog>, responses: nat, log: HandshakeLog)

  // ----- version requests -----

  /** The one thing a chain of version requests is waiting for: a timer, or the fate of a send. */
  datatype Token = Waiting(chain: nat, due: nat, initial: bool) | InFlight(chain: nat)

  /** window numbers the periods between two resets of the first-request time. */
  datatype Sends = NoSends | Sent(past: Sends, chain: nat, at: nat, window: nat)

  /** first is 0 while no request of the current window has been sent. */
  datatype Requests = Requests(
    attempts: nat, first: nat, native2: nat, chains: nat, window: nat, tokens: set<Token>, sends: Sends)

  // ----- USB search -----

  datatype HubPromise = HubPromise(generation: nat, serial: nat)

  datatype Attachments = NoAttachments | Attached(past: Attachments, generation: nat)

  /** accepts counts the pending accepts of listening sockets: each outlives the search it began in. */
  datatype Search = Search(
    generation: nat, hubStarted: bool, startupTimers: nat, promises: set<HubPromise>, issued: nat,
    attachments: Attachments, accepts: nat)

  // ----- pre-handshake grace window -----

  datatype GraceNote = WindowOpened(at: nat) | CountedError(at: nat) | Forgotten | Escalated(at: nat)

  datatype GraceLog = NoGrace | Recorded(past: GraceLog, note: GraceNote)

  /** start is 0 while no window is open. */
  datatype Grace = Grace(errors: nat, start: nat, noDevice: nat, log: GraceLog)

  // ----- the service -----

  /** stack: the AASDK objects exist; control, handler, pipeline: the control channel, its event
      handler, and the decoder and mixer exist. */
  datatype Service = Service(
    now: nat, initialised: bool, stack: bool,
    conn: ConnectionState, teardown: bool, deviceGone: bool,
    control: bool, handler: bool, pipeline: bool,
    sess: Sessions, proj: Projection, hs: Handshake, ver: Requests, search: Search, grace: Grace)
}
