/**
 * The session and protocol state machine of the browser client, as pure
 * functions over the session's state.  Each function is the specification of
 * one handler of `App()`; the class `App.Session` runs the same handlers step
 * by step on mutable fields and is proved to agree with these functions.
 *
 * Every handler reads the current state (the intended sequential semantics of
 * a single-threaded event loop), not a copy captured when it was registered.
 */
module Protocol {
  import opened Wire
  import opened Media
  import opened Timers

  /** Delay between the configuration stages and before a guarded `response.create`. */
  const StageDelay: nat := 300
  /** Delay before recovering from a content-typing parameter error. */
  const RecoverDelay: nat := 500

  /** `dataChannel`: absent, or present in one of its ready states. */
  datatype ChannelState = NoChannel | Connecting | Open | Closed

  /** The debug log, kept abstractly: one entry per kind of line the client appends. */
  datatype LogEntry =
    | Ignored | Starting | SetupError | Stopping
    | Sent | NotReady | ResponseIgnored
    | RecoveryAttempt | Received | ServerError | ErrorMessage | RecoveryPlanned | ParseError
    | Connected | Configured | ChannelError | Disconnected

  datatype State = State(
    isSessionActive: bool,
    isConnecting: bool,
    connectionError: bool,
    hasActiveResponse: bool,
    channel: ChannelState,
    channelId: nat,          // data channels created so far; the current one, if any, is the last
    peer: Option<Peer>,      // peerConnection.current
    audioAttached: bool,     // the audio element plays a remote stream
    devices: seq<bool>,      // every local track acquired so far; true while capturing
    outbox: seq<Frame>,      // every frame sent on the data channel, in order
    log: seq<LogEntry>,
    timers: seq<Timer>,      // pending continuations
    now: nat,                // clock reading, advanced by the timers that fire
    nextId: nat)             // the fresh value the next generated event id takes

  const Initial: State := State(false, false, false, false, NoChannel, 0, None, false, [], [], [], [], 0, 0)

  /** `isDataChannelReady()`. */
  predicate Ready(s: State) {
    s.channel == Open
  }

  function Log(s: State, e: LogEntry): State {
    s.(log := s.log + [e])
  }

  function Schedule(s: State, delay: nat, job: Job): State {
    s.(timers := s.timers + [Timer(s.now + delay, job, s.channelId)])
  }

  /** The fields owned by the transport and by start/stop. */
  predicate SameTransport(s: State, r: State) {
    && r.isSessionActive == s.isSessionActive
    && r.isConnecting == s.isConnecting
    && r.channel == s.channel
    && r.channelId == s.channelId
    && r.peer == s.peer
    && r.audioAttached == s.audioAttached
    && r.devices == s.devices
  }

  predicate SameConnection(s: State, r: State) {
    SameTransport(s, r) && r.connectionError == s.connectionError
  }

  /**
   * `r` sent nothing more than `s`, or exactly one more frame, whose event id
   * is the fresh value `s.nextId`.
   */
  predicate AtMostOneFresh(s: State, r: State) {
    || (r.outbox == s.outbox && r.nextId == s.nextId)
    || (&& |r.outbox| == |s.outbox| + 1 && r.outbox[..|s.outbox|] == s.outbox
        && r.outbox[|s.outbox|].eventId == Some(s.nextId) && r.nextId == s.nextId + 1)
  }

  // ---------------------------------------------------------------------------
  // Sending

  datatype Sending = Sending(state: State, ok: bool, message: Frame)

  /**
   * `sendClientEvent(message)`.  `message` is the message the caller passes;
   * the result's `message` is that object after the call, which keeps or
   * receives an `event_id` and is stamped only after the frame went out.
   */
  function Send(s: State, m: Frame): (r: Sending)
    ensures r.ok == Ready(s)
    ensures !r.ok ==> r.state == Log(s, NotReady) && r.message == m
    ensures r.ok ==> r.state.outbox == s.outbox + [r.message.(timestamp := m.timestamp)]
    ensures r.ok ==> r.state.log == s.log + [Sent]
    ensures r.message.body == m.body
    ensures m.eventId.Some? ==> r.message.eventId == m.eventId && r.state.nextId == s.nextId
    ensures r.ok && m.eventId.None? ==> r.message.eventId == Some(s.nextId) && r.state.nextId == s.nextId + 1
    ensures r.ok ==> r.message.timestamp == (if m.timestamp.Some? then m.timestamp else Some(s.now))
    ensures SameConnection(s, r.state) && r.state.hasActiveResponse == s.hasActiveResponse
    ensures r.state.timers == s.timers && r.state.now == s.now
  {
    if !Ready(s) then Sending(Log(s, NotReady), false, m)
    else
      var id := if m.eventId.Some? then m.eventId else Some(s.nextId);
      var wire := m.(eventId := id);
      var s1 := s.(nextId := if m.eventId.Some? then s.nextId else s.nextId + 1);
      var s2 := Log(s1, Sent).(outbox := s.outbox + [wire]);
      Sending(s2, true, wire.(timestamp := if m.timestamp.Some? then m.timestamp else Some(s.now)))
  }

  /** A message literal as the client builds it: no `event_id`, no timestamp. */
  function Fresh(b: Body): Frame {
    Frame(b, None, None)
  }

  datatype Outcome = Outcome(state: State, ok: bool)

  /** `createResponse()`: the one guard against a second concurrent response. */
  function CreateResponse(s: State): (r: Outcome)
    ensures r.ok <==> !s.hasActiveResponse && Ready(s)
    ensures r.ok ==> r.state.hasActiveResponse
    ensures r.ok ==> r.state.outbox == s.outbox + [Frame(ResponseCreate, Some(s.nextId), None)]
    ensures !r.ok ==> r.state.outbox == s.outbox && r.state.hasActiveResponse == s.hasActiveResponse
    ensures s.hasActiveResponse ==> r.state == Log(s, ResponseIgnored)
    ensures r.state.nextId == if r.ok then s.nextId + 1 else s.nextId
    ensures SameConnection(s, r.state) && r.state.timers == s.timers && r.state.now == s.now
    ensures s.log <= r.state.log
  {
    if s.hasActiveResponse then Outcome(Log(s, ResponseIgnored), false)
    else if Ready(s) then
      var sent := Send(s.(hasActiveResponse := true), Fresh(ResponseCreate));
      Outcome(sent.state, sent.ok)
    else Outcome(s, false)
  }

  /** `initializeConversation()`: the system greeting, then a delayed response. */
  function InitializeConversation(s: State): (r: Outcome)
    ensures r.ok == Ready(s)
    ensures !r.ok ==> r.state == s
    ensures r.ok ==> r.state.outbox == s.outbox + [Frame(SystemMessage(Greeting), Some(s.nextId), None)]
    ensures r.ok ==> r.state.timers == s.timers + [Timer(s.now + StageDelay, InitialResponse, s.channelId)]
    ensures r.state.nextId == if r.ok then s.nextId + 1 else s.nextId
    ensures r.state.hasActiveResponse == s.hasActiveResponse
    ensures SameConnection(s, r.state) && r.state.now == s.now && s.log <= r.state.log
  {
    if !Ready(s) then Outcome(s, false)
    else
      var sent := Send(s, Fresh(SystemMessage(Greeting)));
      if !sent.ok then Outcome(sent.state, false)
      else Outcome(Schedule(sent.state, StageDelay, InitialResponse), true)
  }

  /**
   * `recoverSession()`: optimistically clears the response flag, sends the
   * corrective system message and schedules a guarded `response.create`.
   */
  function RecoverSession(s: State): (r: Outcome)
    ensures r.ok == Ready(s)
    ensures !r.ok ==> r.state == s
    ensures r.ok ==> !r.state.hasActiveResponse
    ensures r.ok ==> r.state.outbox == s.outbox + [Frame(SystemMessage(Recovery), Some(s.nextId), None)]
    ensures r.ok ==> r.state.timers == s.timers + [Timer(s.now + StageDelay, RecoveryResponse, s.channelId)]
    ensures r.state.nextId == if r.ok then s.nextId + 1 else s.nextId
    ensures r.ok ==> r.state.log == s.log + [RecoveryAttempt, Sent]
    ensures SameConnection(s, r.state) && r.state.now == s.now
  {
    if !Ready(s) then Outcome(s, false)
    else
      var s1 := Log(s, RecoveryAttempt).(hasActiveResponse := false);
      var sent := Send(s1, Fresh(SystemMessage(Recovery)));
      if sent.ok then Outcome(Schedule(sent.state, StageDelay, RecoveryResponse), true)
      else Outcome(sent.state, false)
  }

  // ---------------------------------------------------------------------------
  // Timers

  /** The continuation a job schedules when it runs on an open channel. */
  function FollowUp(job: Job): Option<Job> {
    match job
    case ConfigureSession => Some(StartConversation)
    case StartConversation => Some(InitialResponse)
    case InitialResponse => None
    case Recover => Some(RecoveryResponse)
    case RecoveryResponse => None
  }

  /**
   * The open handler's first callback: `session.update` with server-side turn
   * detection, then the greeting one stage later.
   */
  function RunConfigureSession(s: State): (r: State)
    ensures !Ready(s) ==> r == s
    ensures Ready(s) ==>
      && r.outbox == s.outbox + [Frame(SessionUpdate(ServerVad), Some(s.nextId), None)]
      && r.nextId == s.nextId + 1
      && r.timers == s.timers + [Timer(s.now + StageDelay, StartConversation, s.channelId)]
      && r.log == s.log + [Sent, Configured]
    ensures SameConnection(s, r) && r.hasActiveResponse == s.hasActiveResponse && r.now == s.now
  {
    if !Ready(s) then s
    else
      var sent := Send(s, Fresh(SessionUpdate(ServerVad)));
      Schedule(Log(sent.state, Configured), StageDelay, StartConversation)
  }

  /** The body of the `setTimeout` callback that `job` stands for. */
  function RunJob(s: State, job: Job): (r: State)
    ensures !Ready(s) ==> r == s
    ensures AtMostOneFresh(s, r)
    ensures r.timers == s.timers
         || (FollowUp(job).Some? && r.timers == s.timers + [Timer(s.now + StageDelay, FollowUp(job).value, s.channelId)])
    ensures SameConnection(s, r) && r.now == s.now && s.log <= r.log
  {
    match job
    case ConfigureSession => RunConfigureSession(s)
    case StartConversation => InitializeConversation(s).state
    case InitialResponse => if !Ready(s) then s else CreateResponse(s).state
    case Recover => if Ready(s) then RecoverSession(s).state else s
    case RecoveryResponse => if Ready(s) && !s.hasActiveResponse then CreateResponse(s).state else s
  }

  /**
   * The event loop runs the earliest pending timer; the clock moves to its due
   * time.  A callback scheduled for an earlier data channel finds that channel
   * no longer open, so it does nothing.
   */
  function Fire(s: State): (r: State)
    ensures s.timers == [] ==> r == s
    ensures s.timers != [] && s.timers[Earliest(s.timers)].channel != s.channelId ==>
      r == s.(timers := RemoveAt(s.timers, Earliest(s.timers)), now := s.timers[Earliest(s.timers)].due)
    ensures !Ready(s) ==> r.outbox == s.outbox
    ensures SameConnection(s, r) && s.log <= r.log
  {
    if s.timers == [] then s
    else
      var k := Earliest(s.timers);
      var t := s.timers[k];
      var s1 := s.(timers := RemoveAt(s.timers, k), now := t.due);
      if t.channel != s.channelId then s1 else RunJob(s1, t.job)
  }

  // ---------------------------------------------------------------------------
  // Data channel handlers

  /** The data channel's `message` handler; `None` is a frame that does not parse. */
  function OnMessage(s: State, frame: Option<Event>): (r: State)
    ensures !Ready(s) ==> r == s
    ensures Ready(s) && frame.None? ==> r == Log(s, ParseError)
    ensures Ready(s) && frame.Some? ==> r == Dispatch(Log(s, Received), frame.value)
    ensures s.log <= r.log
  {
    if !Ready(s) then s
    else
      match frame
      case None => Log(s, ParseError)
      case Some(ev) => Dispatch(Log(s, Received), ev)
  }

  /** The message handler's reaction to a decoded event, after logging its receipt. */
  function Dispatch(s: State, ev: Event): (r: State)
    ensures r.outbox == s.outbox && r.nextId == s.nextId && r.now == s.now
    ensures SameTransport(s, r) && s.log <= r.log
    ensures Classify(ev) == Completed ==>
      !r.hasActiveResponse && r.connectionError == s.connectionError && r.timers == s.timers
    ensures Classify(ev) == PeerConflict ==>
      r.hasActiveResponse && r.connectionError == s.connectionError && r.timers == s.timers
    ensures Classify(ev) == Recoverable ==>
      && r.connectionError == s.connectionError && r.hasActiveResponse == s.hasActiveResponse
      && r.timers == s.timers + [Timer(s.now + RecoverDelay, Recover, s.channelId)]
    ensures Classify(ev) == Fatal ==>
      r.connectionError && r.hasActiveResponse == s.hasActiveResponse && r.timers == s.timers
    ensures Classify(ev) == PassThrough ==> r == s
  {
    match Classify(ev)
    case Completed => s.(hasActiveResponse := false)
    case PeerConflict => s.(hasActiveResponse := true)
    case Recoverable =>
      Schedule(Log(Log(Log(s, ServerError), ErrorMessage), RecoveryPlanned), RecoverDelay, Recover)
    case Fatal =>
      var s1 := Log(s, ServerError);
      var s2 := if ev.error.Some? && Truthy(ev.error.value.message) then Log(s1, ErrorMessage) else s1;
      s2.(connectionError := true)
    case PassThrough => s
  }

  /**
   * The `open` listener's body: the session is active, the error and response
   * flags are reset, and the configuration stage is scheduled.
   */
  function Opened(s: State): State {
    var s1 := s.(isSessionActive := true, connectionError := false, hasActiveResponse := false);
    Schedule(Log(s1, Connected), StageDelay, ConfigureSession)
  }

  /** The data channel's `open` event and handler. */
  function OnOpen(s: State): (r: State)
    ensures s.channel != Connecting ==> r == s
    ensures s.channel == Connecting ==>
      && r.channel == Open && r.isSessionActive && !r.connectionError && !r.hasActiveResponse
      && r.timers == s.timers + [Timer(s.now + StageDelay, ConfigureSession, s.channelId)]
      && r.log == s.log + [Connected]
    ensures r.outbox == s.outbox && r.nextId == s.nextId && r.now == s.now && r.channelId == s.channelId
    ensures r.peer == s.peer && r.devices == s.devices && r.audioAttached == s.audioAttached
  {
    if s.channel != Connecting then s else Opened(s.(channel := Open))
  }

  /** A live channel is one whose listeners are still attached and can fire. */
  predicate Live(c: ChannelState) {
    c == Connecting || c == Open
  }

  /** The data channel's `error` handler. */
  function OnChannelError(s: State): (r: State)
    ensures !Live(s.channel) ==> r == s
    ensures Live(s.channel) ==> r == Log(s, ChannelError).(connectionError := true)
  {
    if !Live(s.channel) then s
    else Log(s, ChannelError).(connectionError := true)
  }

  /** The data channel's `close` event and handler. */
  function OnClose(s: State): (r: State)
    ensures !Live(s.channel) ==> r == s
    ensures Live(s.channel) ==>
      r.channel == Closed && !r.isSessionActive && r.connectionError && r.log == s.log + [Disconnected]
    ensures r.outbox == s.outbox && r.timers == s.timers && r.hasActiveResponse == s.hasActiveResponse
    ensures r.peer == s.peer && r.devices == s.devices && r.audioAttached == s.audioAttached
  {
    if !Live(s.channel) then s
    else Log(s, Disconnected).(channel := Closed, isSessionActive := false, connectionError := true)
  }

  /** `pc.ontrack`: the remote stream is attached to the audio element. */
  function OnRemoteTrack(s: State): (r: State)
    ensures r.audioAttached <==> s.audioAttached || s.peer.Some?
    ensures r == s.(audioAttached := r.audioAttached)
  {
    if s.peer.Some? then s.(audioAttached := true) else s
  }

  // ---------------------------------------------------------------------------
  // Lifecycle

  /**
   * `stopSession(clearLogs)`: closes the channel, stops every track the peer
   * connection sends, releases the remote audio, and resets the flags.
   */
  function Stop(s: State, clearLogs: bool): (r: State)
    ensures !r.isSessionActive && !r.hasActiveResponse && r.channel == NoChannel && r.peer == None
    ensures !r.audioAttached
    ensures r.log == if clearLogs then [] else s.log + [Stopping]
    ensures |r.devices| == |s.devices|
    ensures forall i :: 0 <= i < |s.devices| ==>
      (r.devices[i] <==> s.devices[i] && !(s.peer.Some? && Uses(s.peer.value.senders, i)))
    ensures r.isConnecting == s.isConnecting && r.connectionError == s.connectionError
    ensures r.outbox == s.outbox && r.timers == s.timers && r.now == s.now && r.nextId == s.nextId
    ensures r.channelId == s.channelId
  {
    var devices := if s.peer.Some? then Released(s.devices, s.peer.value.senders) else s.devices;
    var s1 := Log(s, Stopping);
    s1.(isSessionActive := false, channel := NoChannel, peer := None, audioAttached := false,
        devices := devices, hasActiveResponse := false, log := if clearLogs then [] else s1.log)
  }

  /** What the transport negotiation in `startSession` came to. */
  datatype Negotiation =
    | Negotiated       // offer/answer applied; the channel is connecting
    | TokenFailed      // the `/token` request failed: nothing created yet
    | MediaDenied      // `getUserMedia` rejected: a peer connection without tracks
    | ExchangeFailed   // the offer/answer exchange failed: microphone live, channel connecting

  /** A start request is ignored while connecting or active. */
  predicate Busy(s: State) {
    s.isConnecting || s.isSessionActive
  }

  /** The steps before negotiation: set the flags, tear down stale resources, log. */
  function Prepare(s: State): State {
    Log(Stop(s.(isConnecting := true, connectionError := false), false), Starting)
  }

  /** The peer connection being built, sending the microphone track just acquired. */
  function MicrophonePeer(s: State): Peer {
    Peer([Sender(Some(|s.devices|))])
  }

  /** The negotiation failed before a microphone track was added to the peer connection. */
  predicate FailedEarly(n: Negotiation) {
    n == TokenFailed || n == MediaDenied
  }

  /** The peer connection under construction when the negotiation ended. */
  function PartialPeer(s: State, n: Negotiation): Peer {
    if FailedEarly(n) then Peer([]) else MicrophonePeer(s)
  }

  /**
   * The `try` block of `startSession` up to where the negotiation ended: unless
   * the token request or `getUserMedia` failed, the microphone track is
   * acquired and a new data channel created, and the peer connection is kept
   * only once the exchange succeeded.
   */
  function Attempt(s: State, n: Negotiation): State {
    if FailedEarly(n) then s
    else
      var s1 := s.(devices := s.devices + [true], channel := Connecting, channelId := s.channelId + 1);
      if n == Negotiated then s1.(peer := Some(MicrophonePeer(s))) else s1
  }

  /**
   * The `catch` block of `startSession`: log, flag the error and tear down with
   * the log cleared.  `peerConnection.current` has not been assigned yet, so
   * the teardown does not reach the half-built connection.
   */
  function SetupFailed(s: State): State {
    Stop(Log(s, SetupError).(connectionError := true), true)
  }

  /** The tracks of the half-built connection `partial` are stopped. */
  function ReleasePartial(s: State, partial: Peer): State {
    s.(devices := Released(s.devices, partial.senders))
  }

  /**
   * `startSession` on a session that is neither connecting nor active;
   * `finally` clears `isConnecting`.  `releasePartial` says whether a failure
   * stops the half-built connection's tracks, which the code does not do.
   */
  function Negotiate(s: State, n: Negotiation, releasePartial: bool): State {
    var s1 := Prepare(s);
    var s2 := Attempt(s1, n);
    var s3 :=
      if n == Negotiated then s2
      else if releasePartial then SetupFailed(ReleasePartial(s2, PartialPeer(s1, n)))
      else SetupFailed(s2);
    s3.(isConnecting := false)
  }

  /**
   * `startSession()`.  A failure after the microphone was acquired drops the
   * half-built peer connection without stopping its track, so the microphone
   * keeps capturing.
   */
  function Start(s: State, n: Negotiation): (r: State)
    ensures Busy(s) ==> r == Log(s, Ignored)
    ensures !Busy(s) ==> !r.isConnecting && !r.isSessionActive && !r.hasActiveResponse && !r.audioAttached
    ensures !Busy(s) && n != Negotiated ==>
      r.connectionError && r.log == [] && r.channel == NoChannel && r.peer == None
    ensures !Busy(s) && n == Negotiated ==>
      && !r.connectionError && r.channel == Connecting
      && r.peer == Some(Peer([Sender(Some(|s.devices|))]))
      && r.log == s.log + [Stopping, Starting]
    ensures !Busy(s) ==>
      && |r.devices| == |s.devices| + (if FailedEarly(n) then 0 else 1)
      && (forall i :: 0 <= i < |s.devices| ==>
            (r.devices[i] <==> s.devices[i] && !(s.peer.Some? && Uses(s.peer.value.senders, i))))
      && (!FailedEarly(n) ==> r.devices[|s.devices|])
    ensures !Busy(s) ==> r.channelId == s.channelId + (if FailedEarly(n) then 0 else 1)
    ensures r.outbox == s.outbox && r.timers == s.timers && r.now == s.now && r.nextId == s.nextId
  {
    if Busy(s) then Log(s, Ignored) else Negotiate(s, n, false)
  }

  /**
   * `startSession()` with the half-built connection's tracks stopped on
   * failure.  It differs from `Start` only in the device table, and there only
   * in the microphone track a failed exchange acquired, which it stops.
   */
  function StartReleasing(s: State, n: Negotiation): (r: State)
    ensures r.(devices := Start(s, n).devices) == Start(s, n)
    ensures |r.devices| == |Start(s, n).devices|
    ensures forall i :: 0 <= i < |r.devices| && i != |s.devices| ==> r.devices[i] == Start(s, n).devices[i]
    ensures !Busy(s) && n == ExchangeFailed ==> !r.devices[|s.devices|]
    ensures !Busy(s) && n == Negotiated ==> r.devices[|s.devices|]
  {
    if Busy(s) then Log(s, Ignored)
    else
      assert MicrophonePeer(Prepare(s)).senders[0].track == Some(|s.devices|);
      Negotiate(s, n, true)
  }

  // ---------------------------------------------------------------------------
  // The environment

  /**
   * Time passing between two handlers: the clock moves `d` ms forward, but not
   * past the earliest pending timer, which the event loop runs before any
   * later event.  Nothing else changes.
   */
  function Elapse(s: State, d: nat): (r: State)
    ensures r == s.(now := r.now)
    ensures s.now <= r.now <= s.now + d
    ensures (s.timers == [] || s.now + d <= s.timers[Earliest(s.timers)].due) ==> r.now == s.now + d
    ensures forall i :: 0 <= i < |s.timers| && s.now <= s.timers[i].due ==> r.now <= s.timers[i].due
  {
    if s.timers == [] then s.(now := s.now + d)
    else
      var due := s.timers[Earliest(s.timers)].due;
      if s.now + d <= due then s.(now := s.now + d)
      else if s.now <= due then s.(now := due)
      else s
  }

  /** Everything that can happen to a session: user intents, transport events, timers, time passing. */
  datatype Action =
    | UserStart(outcome: Negotiation)
    | UserStop
    | ChannelOpened
    | ChannelFailed
    | ChannelClosed
    | FrameArrived(frame: Option<Event>)
    | RemoteTrack
    | TimerFired
    | Wait(ms: nat)

  function Step(s: State, a: Action): State {
    match a
    case UserStart(n) => Start(s, n)
    case UserStop => Stop(s, true)
    case ChannelOpened => OnOpen(s)
    case ChannelFailed => OnChannelError(s)
    case ChannelClosed => OnClose(s)
    case FrameArrived(f) => OnMessage(s, f)
    case RemoteTrack => OnRemoteTrack(s)
    case TimerFired => Fire(s)
    case Wait(d) => Elapse(s, d)
  }

  function Run(s: State, acts: seq<Action>): State
    decreases |acts|
  {
    if acts == [] then s else Run(Step(s, acts[0]), acts[1..])
  }
}
