/**
 * The `App()` component's session state and handlers as a mutable object.
 * Each method performs the steps of the matching `App()` handler, in that
 * handler's order, on the fields, and is proved to end in the state the
 * matching `Protocol` function specifies; the properties proved about those
 * functions therefore hold of these methods.
 */
module App {
  import opened Wire
  import opened Media
  import opened Timers
  import opened Protocol

  /** A message object built by a caller; sending fills in its id and timestamp in place. */
  class OutgoingMessage {
    const body: Body
    var eventId: Option<nat>
    var timestamp: Option<nat>

    function Snapshot(): Frame
      reads this
    {
      Frame(body, eventId, timestamp)
    }

    constructor (body: Body)
      ensures Snapshot() == Fresh(body)
    {
      this.body := body;
      eventId := None;
      timestamp := None;
    }
  }

  class Session {
    var isSessionActive: bool
    var isConnecting: bool
    var connectionError: bool
    var hasActiveResponse: bool
    var channel: ChannelState
    var channelId: nat
    var peer: Option<Peer>
    var audioAttached: bool
    var devices: seq<bool>
    var outbox: seq<Frame>
    var log: seq<LogEntry>
    var timers: seq<Timer>
    var now: nat
    var nextId: nat

    /** The session's state as a value. */
    function View(): State
      reads this
    {
      State(isSessionActive, isConnecting, connectionError, hasActiveResponse, channel, channelId, peer,
            audioAttached, devices, outbox, log, timers, now, nextId)
    }

    constructor ()
      ensures View() == Initial
    {
      isSessionActive, isConnecting, connectionError, hasActiveResponse := false, false, false, false;
      channel, channelId, peer, audioAttached := NoChannel, 0, None, false;
      devices, outbox, log, timers := [], [], [], [];
      now, nextId := 0, 0;
    }

    predicate IsDataChannelReady()
      reads this
      ensures IsDataChannelReady() <==> Ready(View())
    {
      channel == Open
    }

    /** `setTimeout(job, delay)`. */
    method SetTimeout(delay: nat, job: Job)
      modifies this
      ensures View() == Schedule(old(View()), delay, job)
    {
      timers := timers + [Timer(now + delay, job, channelId)];
    }

    method StartSession(outcome: Negotiation)
      modifies this
      ensures View() == Start(old(View()), outcome)
    {
      if isConnecting || isSessionActive {
        log := log + [Ignored];
        return;
      }
      PrepareSession();
      Connect(outcome);
      if outcome != Negotiated {
        AbortSetup();
      }
      isConnecting := false;
    }

    /** The start of `startSession`'s `try` block: flag the attempt and tear down any previous session. */
    method PrepareSession()
      modifies this
      ensures View() == Prepare(old(View()))
    {
      isConnecting := true;
      connectionError := false;
      StopSession(false);
      log := log + [Starting];
    }

    /**
     * The negotiation: acquire the microphone, create the peer connection and
     * its data channel, and keep the connection once the exchange succeeded.
     * The half-built connection is local to the `try` block.
     */
    method Connect(outcome: Negotiation)
      modifies this
      ensures View() == Attempt(old(View()), outcome)
    {
      if outcome == TokenFailed || outcome == MediaDenied {
        return;
      }
      var mic := |devices|;
      devices := devices + [true];
      var pc := Peer([Sender(Some(mic))]);
      channel := Connecting;
      channelId := channelId + 1;
      if outcome == Negotiated {
        peer := Some(pc);
      }
    }

    /**
     * The `catch` block of `startSession`: log the failure, flag the error and
     * tear down with the log cleared.  The half-built connection was never
     * stored in `peer`, so its tracks are not stopped.
     */
    method AbortSetup()
      modifies this
      ensures View() == SetupFailed(old(View()))
    {
      log := log + [SetupError];
      connectionError := true;
      StopSession(true);
    }

    method StopSession(clearLogs: bool)
      modifies this
      ensures !isSessionActive && !hasActiveResponse && channel == NoChannel && peer == None && !audioAttached
      ensures devices == if old(peer).Some? then Released(old(devices), old(peer).value.senders) else old(devices)
      ensures log == if clearLogs then [] else old(log) + [Stopping]
      ensures isConnecting == old(isConnecting) && connectionError == old(connectionError)
      ensures outbox == old(outbox) && timers == old(timers) && now == old(now) && nextId == old(nextId)
      ensures channelId == old(channelId)
      ensures View() == Stop(old(View()), clearLogs)
    {
      log := log + [Stopping];
      CloseConnection();
      if clearLogs {
        log := [];
      }
    }

    /** The part of `stopSession` that closes the channel and the peer connection and resets the flags. */
    method CloseConnection()
      modifies this
      ensures !isSessionActive && !hasActiveResponse && channel == NoChannel && peer == None && !audioAttached
      ensures devices == if old(peer).Some? then Released(old(devices), old(peer).value.senders) else old(devices)
      ensures log == old(log) && isConnecting == old(isConnecting) && connectionError == old(connectionError)
      ensures outbox == old(outbox) && timers == old(timers) && now == old(now) && nextId == old(nextId)
      ensures channelId == old(channelId)
    {
      if channel == Open {
        channel := Closed;
      }
      if peer.Some? {
        devices := StopSenderTracks(devices, peer.value.senders);
      }
      audioAttached := false;
      isSessionActive, channel, peer, hasActiveResponse := false, NoChannel, None, false;
    }

    method SendClientEvent(message: OutgoingMessage) returns (ok: bool)
      modifies this, message
      ensures var r := Send(old(View()), old(message.Snapshot()));
        View() == r.state && ok == r.ok && message.Snapshot() == r.message
    {
      if IsDataChannelReady() {
        var stamp := now;
        if message.eventId.None? {
          message.eventId := Some(nextId);
          nextId := nextId + 1;
        }
        log := log + [Sent];
        outbox := outbox + [message.Snapshot()];
        if message.timestamp.None? {
          message.timestamp := Some(stamp);
        }
        ok := true;
      } else {
        log := log + [NotReady];
        ok := false;
      }
    }

    method CreateResponse() returns (ok: bool)
      modifies this
      ensures var r := Protocol.CreateResponse(old(View()));
        View() == r.state && ok == r.ok
    {
      if hasActiveResponse {
        log := log + [ResponseIgnored];
        return false;
      }
      if IsDataChannelReady() {
        hasActiveResponse := true;
        var message := new OutgoingMessage(ResponseCreate);
        ok := SendClientEvent(message);
        return;
      }
      return false;
    }

    method InitializeConversation() returns (ok: bool)
      modifies this
      ensures var r := Protocol.InitializeConversation(old(View()));
        View() == r.state && ok == r.ok
    {
      if !IsDataChannelReady() {
        return false;
      }
      var message := new OutgoingMessage(SystemMessage(Greeting));
      var sent := SendClientEvent(message);
      if !sent {
        return false;
      }
      SetTimeout(StageDelay, InitialResponse);
      return true;
    }

    method RecoverSession() returns (ok: bool)
      modifies this
      ensures var r := Protocol.RecoverSession(old(View()));
        View() == r.state && ok == r.ok
    {
      if !IsDataChannelReady() {
        return false;
      }
      log := log + [RecoveryAttempt];
      hasActiveResponse := false;
      var message := new OutgoingMessage(SystemMessage(Recovery));
      var sent := SendClientEvent(message);
      if sent {
        SetTimeout(StageDelay, RecoveryResponse);
        return true;
      }
      return false;
    }

    /** The open handler's first callback: configure turn detection, then schedule the greeting. */
    method RunConfigureSession()
      modifies this
      ensures View() == RunJob(old(View()), ConfigureSession)
    {
      if !IsDataChannelReady() {
        return;
      }
      var message := new OutgoingMessage(SessionUpdate(ServerVad));
      var sent := SendClientEvent(message);
      log := log + [Configured];
      SetTimeout(StageDelay, StartConversation);
    }

    /** The callback `initializeConversation` schedules. */
    method RunInitialResponse()
      modifies this
      ensures View() == RunJob(old(View()), InitialResponse)
    {
      if !IsDataChannelReady() {
        return;
      }
      var created := CreateResponse();
    }

    /** The callback the message handler schedules for a recoverable error. */
    method RunRecover()
      modifies this
      ensures View() == RunJob(old(View()), Recover)
    {
      if IsDataChannelReady() {
        var recovered := RecoverSession();
      }
    }

    /** The callback `recoverSession` schedules. */
    method RunRecoveryResponse()
      modifies this
      ensures View() == RunJob(old(View()), RecoveryResponse)
    {
      if IsDataChannelReady() && !hasActiveResponse {
        var created := CreateResponse();
      }
    }

    /** The event loop runs the earliest pending timer. */
    method FireTimer()
      modifies this
      ensures View() == Fire(old(View()))
    {
      if timers == [] {
        return;
      }
      var k := Earliest(timers);
      var t := timers[k];
      timers := RemoveAt(timers, k);
      now := t.due;
      if t.channel != channelId {
        return;
      }
      match t.job {
        case ConfigureSession => RunConfigureSession();
        case StartConversation => var started := InitializeConversation();
        case InitialResponse => RunInitialResponse();
        case Recover => RunRecover();
        case RecoveryResponse => RunRecoveryResponse();
      }
    }

    /** The data channel's `message` handler. */
    method HandleMessage(frame: Option<Event>)
      modifies this
      ensures View() == OnMessage(old(View()), frame)
    {
      if channel != Open {
        return;
      }
      if frame.None? {
        log := log + [ParseError];
        return;
      }
      log := log + [Received];
      HandleEvent(frame.value);
    }

    /** The rest of the message handler, once a decoded event has been logged. */
    method HandleEvent(event: Event)
      modifies this
      ensures View() == Dispatch(old(View()), event)
    {
      if event.kind == ResponseDoneType {
        hasActiveResponse := false;
      }
      if event.kind == ErrorType && event.error.Some? && event.error.value.code == Some(ActiveResponseCode) {
        hasActiveResponse := true;
        return;
      }
      if event.kind == ErrorType {
        log := log + [ServerError];
        if event.error.Some? && Truthy(event.error.value.message) {
          log := log + [ErrorMessage];
          var e := event.error.value;
          if && e.code == Some(InvalidValueCode) && Truthy(e.param)
             && (Contains(e.param.value, "type") || Contains(e.message.value, "must be 'input_text'"))
          {
            log := log + [RecoveryPlanned];
            SetTimeout(RecoverDelay, Recover);
            return;
          }
        }
        connectionError := true;
      }
    }

    /** The data channel opens and its `open` handler runs. */
    method HandleOpen()
      modifies this
      ensures View() == OnOpen(old(View()))
    {
      if channel != Connecting {
        return;
      }
      channel := Open;
      RunOpenHandler();
    }

    /** The `open` listener: mark the session active and schedule its configuration. */
    method RunOpenHandler()
      modifies this
      ensures View() == Opened(old(View()))
    {
      isSessionActive := true;
      connectionError := false;
      hasActiveResponse := false;
      log := log + [Connected];
      SetTimeout(StageDelay, ConfigureSession);
    }

    /** The data channel's `error` handler. */
    method HandleError()
      modifies this
      ensures View() == OnChannelError(old(View()))
    {
      if channel != Connecting && channel != Open {
        return;
      }
      log := log + [ChannelError];
      connectionError := true;
    }

    /** The data channel closes and its `close` handler runs. */
    method HandleClose()
      modifies this
      ensures View() == OnClose(old(View()))
    {
      if channel != Connecting && channel != Open {
        return;
      }
      channel := Closed;
      log := log + [Disconnected];
      isSessionActive := false;
      connectionError := true;
    }

    /** `pc.ontrack`: attach the remote stream to the audio element. */
    method HandleRemoteTrack()
      modifies this
      ensures View() == OnRemoteTrack(old(View()))
    {
      if peer.Some? {
        audioAttached := true;
      }
    }
  }
}
