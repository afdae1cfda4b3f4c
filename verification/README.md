# India Tour Guide client: the session state machine

A Dafny model of the session and protocol state machine inside `App()` of the
browser client of the realtime voice tour guide
(`client/components/App.jsx`). The client:

- opens a WebRTC session with the realtime endpoint;
- configures it over a data channel: first `session.update` with server-side
  voice activity detection, then a system-role greeting, then
  `response.create`;
- guards against asking for a second response while one is active;
- routes the events the server sends back, including recovery from a
  content-typing error;
- tears everything down on stop.

The model has two layers.

- **Specification.** Module `Protocol` defines the session's state as a value
  (`State`) and gives one function per handler: `Start`, `Stop`, `Send`,
  `CreateResponse`, `InitializeConversation`, `RecoverSession`, `OnMessage`,
  `OnOpen`, `OnChannelError`, `OnClose`, `OnRemoteTrack`, and `Fire` for the
  timers. `Step` and `Run` drive the client by a sequence of user actions,
  channel events, timer firings and time passing. Module `Properties` proves what the
  client promises about these functions.
- **Implementation.** Module `App` holds the class `Session`, whose fields are
  the component's state: `isSessionActive`, `isConnecting`,
  `connectionError`, `hasActiveResponse`, the data channel, the peer
  connection, the audio element, the debug log, the sent frames and the
  pending timers. Each method performs the steps of the matching `App()`
  handler, in that handler's order, updating those fields in place. Each is proved to end in exactly the
  state the matching `Protocol` function gives, so every property proved
  about the functions holds of the methods. `OutgoingMessage` is the message
  object that `sendClientEvent` mutates in place: it receives an `event_id`
  before sending and a `timestamp` after.

Supporting modules:

- `Wire`: the JSON event vocabulary, held as decoded values.
- `Media`: local tracks and peer-connection senders. `StopSenderTracks` is
  the `forEach` over `getSenders()`.
- `Timers`: each `setTimeout` callback is a scheduled continuation with a due
  time. The event loop runs the earliest one first, and among timers due at
  the same time, the one scheduled first.

Modelling choices:

- **Sequential semantics.** Every handler reads the current state, which is
  the intended meaning of a single-threaded event loop. React's batched
  `useState` updates are not modelled, and neither are stale values of
  `hasActiveResponse` captured by closures. The one captured value the model
  keeps is the data channel a timer callback acts on (see the timers below).
- **Listener gating.** A channel's listeners fire only while that channel is
  the current one. `open` fires only while connecting, `message` only while
  open, and `error` and `close` only while connecting or open. The effect
  cleanup removes the listeners as soon as `dataChannel` is replaced.
- **Clearing the log on a failed start.** The `catch` block of
  `startSession` calls `stopSession(true)`, which clears the debug log, so a
  failed start loses its diagnostics. The model follows the code: after a
  failed start the log is empty.
- **A failed start leaks the microphone.** When the offer/answer exchange
  fails, `peerConnection.current` has not been assigned yet, so the teardown
  in the `catch` block does not stop the track `getUserMedia` returned.
  `Protocol.Start`, `Step`, `Run` and the class follow the code. The
  corrected start, `Protocol.StartReleasing`, also stops that track; the
  client run with it is `Properties.StepReleasing` / `RunReleasing`. The
  invariant of the code's client is `Consistent`. The corrected client also
  keeps `OwnedTracks`: every capturing track is sent by the current peer
  connection. See "Findings".
- **Time passes between events.** The model clock `now` moves forward in two
  ways. When a timer fires, it moves to that timer's due time. The action
  `Wait(d)` (`Protocol.Elapse`) lets `d` ms pass between two handlers, but
  never past the earliest pending timer, since the event loop would run that
  timer first. A timer a handler schedules is therefore due at the moment the
  handler ran plus its delay. `Properties.ErrorDuringConfiguration` shows what
  this does to the order of the timers: a recoverable error arriving `d` ms
  after `open` has its recovery sent before the greeting exactly when
  `d + 500 <= 600`.
- **Timers are never cancelled, and act on their own channel.** A stop leaves
  the pending timers in place. Every `setTimeout` callback is a closure over
  the `dataChannel` of the render that registered it, and it first checks
  `isDataChannelReady()` on that channel. Data channels are numbered in order
  of creation (`State.channelId`), and each timer records the channel that
  was current when it was scheduled. A timer of an earlier channel finds that
  channel closed and does nothing (`Properties.StaleTimerInert`). The number
  never decreases (`Properties.ChannelIdNeverDecreasesRun`), and a restart
  turns every timer left over from the previous session into such a stale
  timer (`Properties.RestartOrphansTimers`). As long as no new session is
  started, `Properties.QuietUntilRestart` shows that nothing is sent after a
  stop, whatever timers fire, frames arrive or time passes. `Properties.StaleGreetingAfterRestart` covers
  a restart between two stages: the old channel's greeting comes due while
  the new channel is open, and it sends nothing.

## Model

| member | source | states |
|---|---|---|
| Wire.Classify | client/components/App.jsx:283-327 | each route holds exactly when the event's type and error fields say so (five if-and-only-if clauses), so `response.done`, the active-response conflict, the recoverable typing error, any other error and any other event are told apart |
| Wire.ContainsIffOccurs | client/components/App.jsx:310-311 | the `includes` test used for the recovery check holds exactly when the substring occurs at some position |
| Wire.TypeNameIdentifiesBody | client/components/App.jsx:185-347 | two outbound bodies carry the same wire `type` exactly when they are the same kind of event |
| Wire.IsPeerConflict | client/components/App.jsx:293-295 | an error event whose `error.code` is `conversation_already_has_active_response` |
| Wire.ConflictNotRecoverable | client/components/App.jsx:293-311 | an active-response conflict is an error event and never also a recoverable typing error |
| Wire.IsRecoverable | client/components/App.jsx:306-311 | the recovery test: `invalid_value`, a message and a param, and "type" in the param or "must be 'input_text'" in the message |
| Wire.RecoverableIffTypingError | client/components/App.jsx:306-311 | the recovery test holds exactly when the code is `invalid_value`, message and param are non-empty, and "type" occurs at some position of the param or "must be 'input_text'" at some position of the message |
| Media.StopSenderTracks | client/components/App.jsx:99-105 | the loop over the senders stops exactly the tracks some sender carries and leaves every other track as it was |
| Timers.Earliest | client/components/App.jsx:215-365 | the timer run next is due no later than every pending timer, and no timer scheduled before it is due at the same time |
| Protocol.Send | client/components/App.jsx:141-172 | sends only on an open channel, and otherwise only logs; an existing `event_id` is kept and a missing one gets the fresh id; exactly one frame is appended; the frame on the wire carries no timestamp added by this call; the message is stamped after sending, and only if it had no timestamp |
| Protocol.CreateResponse | client/components/App.jsx:175-189 | succeeds exactly when no response is active and the channel is open; on success it sets the active flag and sends one `response.create` with the fresh id; otherwise nothing is sent |
| Protocol.InitializeConversation | client/components/App.jsx:192-226 | on an open channel, sends the system greeting and schedules the initial response one stage later; otherwise the state is unchanged |
| Protocol.RecoverSession | client/components/App.jsx:229-267 | on an open channel, clears the active flag, sends the corrective system item and schedules the guarded response; otherwise the state is unchanged |
| Protocol.RunConfigureSession | client/components/App.jsx:342-365 | on an open channel, sends `session.update` with server VAD and schedules the greeting; otherwise nothing happens |
| Protocol.RunJob | client/components/App.jsx:215-365 | a timer body does nothing unless the channel is open, sends at most one frame with the fresh id, and schedules at most its own follow-up |
| Protocol.Fire | client/components/App.jsx:215-365 | with nothing pending nothing happens; a timer scheduled for an earlier data channel is only taken off the queue, with the clock moved to its due time; a timer that fires while the channel is not open sends nothing; the connection fields are kept |
| Protocol.OnMessage | client/components/App.jsx:273-332 | a frame that does not parse only adds a PARSE ERROR entry; a parsed one is logged and dispatched; nothing happens unless the channel is open |
| Protocol.Dispatch | client/components/App.jsx:282-327 | `response.done` clears the active flag; the active-response conflict sets it and keeps the error flag; a recoverable error keeps both flags and schedules exactly one recovery 500 ms later; any other error sets `connectionError`; nothing is ever sent |
| Protocol.OnOpen | client/components/App.jsx:334-366 | opening makes the session active, clears the error and response flags, and schedules the configuration stage |
| Protocol.OnChannelError | client/components/App.jsx:368-372 | a channel error logs and sets the error flag, and changes nothing else |
| Protocol.OnClose | client/components/App.jsx:374-379 | a close makes the session inactive and sets the error flag; peer, tracks, outbox and timers are kept |
| Protocol.OnRemoteTrack | client/components/App.jsx:41 | the remote stream is attached exactly when a peer connection exists; nothing else changes |
| Protocol.Stop | client/components/App.jsx:86-133 | resets the flags, drops channel and peer, detaches the audio, stops exactly the tracks the peer connection sends, and clears the log only when asked; otherwise it appends one entry |
| Protocol.Start | client/components/App.jsx:14-83 | a duplicate start only logs IGNORED; otherwise `isConnecting` ends false; a failed start sets the error flag and tears down with the log cleared, stopping only the tracks of the previous peer connection, so a microphone track acquired before the exchange failed keeps capturing; a successful one leaves a connecting channel and a peer sending the new microphone track; a new data channel is numbered unless the token or media request failed; nothing is sent |
| Protocol.StartReleasing | client/components/App.jsx:44-83 | the corrected start: the same state as `Start` except in the device table, and there only at the track this start acquired, which a failed exchange stops and a successful one keeps capturing |
| Protocol.Elapse | client/components/App.jsx:215-365 | time passing between handlers moves only the clock, forward by at most `d`, by exactly `d` when no timer comes due first, and never past a pending timer |
| Protocol.Ready | client/components/App.jsx:136-138 | `isDataChannelReady()`: the data channel exists and is open |
| Properties.InitialValid | client/components/App.jsx:5-12 | the initial state satisfies the session invariant |
| Properties.EventIdsUnique | client/components/App.jsx:145 | two distinct sent frames never share an event id |
| Properties.FreshKeepsNumbering | client/components/App.jsx:145 | sending at most one frame with the fresh id keeps the ids increasing and below the next fresh value |
| Properties.StopReleasesAllTracks | client/components/App.jsx:99-105 | when every capturing track is owned by the peer connection, a stop leaves no track capturing |
| Properties.StepPreservesConsistent | client/components/App.jsx:14-379 | every handler and timer of the client as written preserves the session invariant: ids unique and increasing, no timer due in the past, every timer tied to a channel already created, not connecting between handlers, active exactly when the channel is open, a peer exactly when a channel exists, remote audio only with a peer |
| Properties.StartPreservesConsistent | client/components/App.jsx:14-83 | `startSession`, as written, preserves the invariant |
| Properties.OpenPreservesConsistent | client/components/App.jsx:334-366 | the open handler preserves the invariant |
| Properties.ChannelErrorPreservesConsistent | client/components/App.jsx:368-372 | the error handler preserves the invariant |
| Properties.ClosePreservesConsistent | client/components/App.jsx:374-379 | the close handler preserves the invariant |
| Properties.RemoteTrackPreservesConsistent | client/components/App.jsx:41 | attaching the remote stream preserves the invariant |
| Properties.MessagePreservesConsistent | client/components/App.jsx:273-332 | the message handler preserves the invariant |
| Properties.ElapsePreservesConsistent | client/components/App.jsx:215-365 | time passing between handlers keeps the invariant, in particular no pending timer falls behind the clock |
| Properties.FirePreservesConsistent | client/components/App.jsx:215-365 | running a timer preserves the invariant and never moves the clock backwards |
| Properties.TakeEarliestKeepsAhead | client/components/App.jsx:215-365 | taking the earliest timer off the queue leaves no remaining timer in the past or tied to an unknown channel |
| Properties.RunJobPreservesConsistent | client/components/App.jsx:215-365 | every timer body preserves the invariant |
| Properties.RunPreservesConsistent | client/components/App.jsx:14-379 | every state reachable from a consistent one, by the client as written, is consistent |
| Properties.ActiveIffOpen | client/components/App.jsx:334-379 | in every state the client as written reaches, the session is active exactly when the data channel is open, and not connecting |
| Properties.StartLeaksMicrophone | client/components/App.jsx:44-83 | as written, a start whose offer/answer exchange fails leaves the microphone capturing with no peer connection, so the ownership invariant is broken and a later stop cannot release it |
| Properties.LeakReachable | client/components/App.jsx:44-83 | the leak is reachable: the very first start, failing its exchange, ends in a consistent state with the microphone capturing and no peer connection |
| Properties.StartReleasingKeepsTracksOwned | client/components/App.jsx:44-83 | the corrected start keeps every capturing track owned by the peer connection, and after a failed corrected start nothing captures |
| Properties.StepKeepsTracksOwned | client/components/App.jsx:86-379 | every action other than a start keeps every capturing track owned |
| Properties.StepReleasingPreservesValid | client/components/App.jsx:14-379 | with the corrected start, every action preserves the invariant together with track ownership |
| Properties.RunReleasingPreservesValid | client/components/App.jsx:14-379 | with the corrected start, every reachable state is consistent and no capturing track is out of the teardown's reach |
| Properties.StopIdempotent | client/components/App.jsx:86-133 | a second stop changes nothing but the log |
| Properties.StopRepeated | client/components/App.jsx:86-133 | any number of consecutive stops gives the state of one stop plus one log entry each, or an empty log when clearing |
| Properties.QuietWhileNotReady | client/components/App.jsx:215-220 | however many timers fire while the channel is not open, nothing is sent |
| Properties.NothingSentAfterStop | client/components/App.jsx:215-365 | after a stop, and as long as no new session is started, however many pending timers fire, nothing is sent |
| Properties.IdleStepQuiet | client/components/App.jsx:215-379 | with no channel open or connecting, any action other than a start leaves the outbox unchanged and no channel live |
| Properties.NothingSentWhileIdle | client/components/App.jsx:215-379 | with no channel open or connecting, any run of actions without a start leaves the outbox unchanged |
| Properties.QuietUntilRestart | client/components/App.jsx:86-379 | after a stop, any run of timer firings, frames, channel events and waiting, up to the next start, sends nothing |
| Properties.StaleTimerInert | client/components/App.jsx:215-365 | a timer scheduled for an earlier data channel sends, logs and schedules nothing and leaves the flags alone; it is only removed and moves the clock |
| Properties.ChannelIdNeverDecreases | client/components/App.jsx:14-379 | no action lowers the number of the current data channel |
| Properties.ChannelIdNeverDecreasesRun | client/components/App.jsx:14-379 | the channel number never decreases along any run, so a stale timer stays stale |
| Properties.RestartOrphansTimers | client/components/App.jsx:14-133 | a stop keeps every pending timer, and a start that creates a new data channel leaves all of them tied to earlier channels |
| Properties.FirstStageSent | client/components/App.jsx:334-365 | the first session's first stage sends `session.update` and leaves only the greeting pending |
| Properties.RestartKeepsGreetingQuiet | client/components/App.jsx:192-220 | after a stop, a restart and the new channel's opening, the old channel's greeting comes due first and sends nothing |
| Properties.StaleGreetingAfterRestart | client/components/App.jsx:14-365 | start, open, first stage, stop, start, open, one timer: only the first channel's `session.update` has been sent |
| Properties.CreateResponseTwice | client/components/App.jsx:175-189 | of two consecutive `createResponse` calls the second always refuses, and at most one frame goes out |
| Properties.FireOnly | client/components/App.jsx:342-365 | with a single timer pending, firing runs exactly that timer at its due time |
| Properties.ConfigureFires | client/components/App.jsx:342-365 | the configuration timer sends `session.update` with the fresh id and schedules the greeting |
| Properties.GreetingFires | client/components/App.jsx:192-220 | the greeting timer sends the system item and schedules the initial response |
| Properties.ResponseFires | client/components/App.jsx:215-220 | a guarded response timer with no response active sends `response.create` and marks one active |
| Properties.RecoverFires | client/components/App.jsx:315-319 | the recovery timer sends the corrective system item and schedules the guarded response |
| Properties.FireTimesUnfold | client/components/App.jsx:342-365 | firing n+1 timers is firing one and then n |
| Properties.GreetingThenResponse | client/components/App.jsx:192-220 | with the greeting timer alone pending on an open channel and no response active, it and the response timer it schedules send the system item and then `response.create`, one stage apart |
| Properties.ConfigureThenConversation | client/components/App.jsx:192-365 | with the configuration timer alone pending on an open channel and no response active, it and the two stages it leads to, send `session.update`, the greeting and `response.create` with consecutive fresh ids, one stage apart, and leave a response active |
| Properties.OpeningSequence | client/components/App.jsx:334-366 | after the channel opens, the outbox receives `session.update`, then the system greeting, then `response.create`, with consecutive fresh ids and one stage apart; the session is active, without error and with a response active |
| Properties.ErrorDuringConfiguration | client/components/App.jsx:309-365 | with no timer pending when the channel opens, a recoverable error `d` ms after `open`, before the configuration stage: `session.update` goes out first, then the recovery item if `d + 500 <= 600` and the greeting otherwise, with consecutive fresh ids |
| Properties.ErrorThenConfigure | client/components/App.jsx:309-365 | with no timer pending when the channel opens, after such an error the configuration stage runs first and queues the greeting behind the pending recovery |
| Properties.OpenThenWait | client/components/App.jsx:334-365 | with no timer pending when the channel opens, and less than a stage passing after it: only the configuration timer is pending, due one stage after `open` |
| Properties.ConfigureBeforeRecovery | client/components/App.jsx:315-365 | configuration due before a pending recovery runs first, sends `session.update` and queues the greeting |
| Properties.SecondStage | client/components/App.jsx:192-267 | with the recovery and the greeting pending, the one due first, the recovery on a tie, sends its system item |
| Properties.RecoverableErrorHandled | client/components/App.jsx:309-323 | a recoverable error on an open channel keeps both flags, sends nothing and schedules one recovery 500 ms later |
| Properties.RecoveryRuns | client/components/App.jsx:229-267 | a recovery timer pending alone on an open channel sends one corrective system item and, one stage later, one `response.create` |
| Properties.RecoverableErrorRecovers | client/components/App.jsx:309-323 | after a recoverable error the error flag is untouched; 500 ms later exactly one corrective item is sent, and one stage after that a single `response.create` |
| Properties.LogOnlyGrows | client/components/App.jsx:86-133 | every action other than a start or a stop only appends to the debug log |
| App.Session.constructor | client/components/App.jsx:5-12 | the component starts in the initial state |
| App.OutgoingMessage.constructor | client/components/App.jsx:185 | a message literal has no `event_id` and no timestamp |
| App.Session.IsDataChannelReady | client/components/App.jsx:136-138 | holds exactly when the session's view is `Protocol.Ready` |
| App.Session.SetTimeout | client/components/App.jsx:215-220 | `setTimeout` appends one timer due `delay` after now, tied to the current data channel |
| App.Session.StartSession | client/components/App.jsx:14-83 | the in-place start ends in the state `Protocol.Start` gives, leaking the microphone track on a failed exchange as the code does |
| App.Session.PrepareSession | client/components/App.jsx:22-30 | flags the attempt, tears down any previous session and logs the start |
| App.Session.Connect | client/components/App.jsx:31-74 | acquires the microphone and a newly numbered channel unless the token or media request failed, and keeps the peer only once the exchange succeeded |
| App.Session.AbortSetup | client/components/App.jsx:75-79 | the `catch` block: log, set the error flag and tear down with the log cleared; the half-built connection was never stored, so its tracks are not stopped |
| App.Session.StopSession | client/components/App.jsx:86-133 | every field after the in-place teardown, and agreement with `Protocol.Stop` |
| App.Session.CloseConnection | client/components/App.jsx:89-128 | closes the channel and the peer connection, stops exactly the tracks the peer sends, detaches the audio and resets the flags, leaving the log and the timers alone |
| App.Session.SendClientEvent | client/components/App.jsx:141-172 | the state and the mutated message end as `Protocol.Send` gives |
| App.Session.CreateResponse | client/components/App.jsx:175-189 | agrees with `Protocol.CreateResponse` on state and result |
| App.Session.InitializeConversation | client/components/App.jsx:192-226 | agrees with `Protocol.InitializeConversation` on state and result |
| App.Session.RecoverSession | client/components/App.jsx:229-267 | agrees with `Protocol.RecoverSession` on state and result |
| App.Session.RunConfigureSession | client/components/App.jsx:342-365 | the first open-handler callback ends as `Protocol.RunJob` gives |
| App.Session.RunInitialResponse | client/components/App.jsx:215-220 | the initial-response callback ends as `Protocol.RunJob` gives |
| App.Session.RunRecover | client/components/App.jsx:315-319 | the recovery callback ends as `Protocol.RunJob` gives |
| App.Session.RunRecoveryResponse | client/components/App.jsx:254-261 | the guarded recovery response ends as `Protocol.RunJob` gives |
| App.Session.FireTimer | client/components/App.jsx:215-365 | running the earliest timer ends as `Protocol.Fire` gives; a timer of an earlier channel only leaves the queue |
| App.Session.HandleMessage | client/components/App.jsx:273-332 | the message handler ends as `Protocol.OnMessage` gives |
| App.Session.HandleEvent | client/components/App.jsx:282-327 | the dispatch of a decoded event ends as `Protocol.Dispatch` gives |
| App.Session.HandleOpen | client/components/App.jsx:334-366 | the open event and handler end as `Protocol.OnOpen` gives |
| App.Session.RunOpenHandler | client/components/App.jsx:335-365 | the open listener's body sets the flags, logs and schedules the configuration |
| App.Session.HandleError | client/components/App.jsx:368-372 | the error handler ends as `Protocol.OnChannelError` gives |
| App.Session.HandleClose | client/components/App.jsx:374-379 | the close handler ends as `Protocol.OnClose` gives |
| App.Session.HandleRemoteTrack | client/components/App.jsx:41 | `ontrack` ends as `Protocol.OnRemoteTrack` gives |

## Left out

- WebRTC plumbing is not modelled: `RTCPeerConnection`, `createOffer`, the local and remote descriptions, the SDP offer/answer exchange, and `getUserMedia`. These are browser capabilities. Their combined result is the parameter `Negotiation`, one of: success, token failure, media denied, or exchange failure.
- The `/token` fetch and the POST to the realtime endpoint are network I/O. Their outcome is folded into `Negotiation`, and the credential is not represented.
- JSON parsing and serialisation are not modelled. Inbound frames are decoded `Event` values, or `None` for a frame that does not parse. Outbound messages are `Frame` values. The exact prompt text is kept in `Wire.PromptText`, and content parts carry the `Prompt` it belongs to.
- `crypto.randomUUID` is not modelled. Generated ids are the fresh counter `nextId`.
- `toLocaleTimeString` is not modelled. Timestamps are readings of the model clock `now`, which advances when a timer fires or when time passes between handlers (`Wait`).
- Console output and the text of debug-log lines are not modelled. The log keeps one `LogEntry` per line, of the matching kind.
- The `SEND ERROR` branch of `sendClientEvent` is not modelled. It is reached only when `dataChannel.send` throws, and the channel is not modelled at that level.
- A non-string `param` or `message`, which would make `includes` throw, is not modelled. Both are strings in the model.
- The async interleavings inside `startSession` are not modelled: another handler running between its `await`s, and `ontrack` firing during negotiation. `startSession` is one atomic step whose negotiation outcome is a parameter.
- React state batching and stale closure values other than the data channel are not modelled (see the sequential semantics above). Listener registration, effect cleanup and the unmount effect are not modelled either; listeners are gated by channel state instead.
- `dataChannel.close()` and `peerConnection.close()` have no observable effect. The listeners are removed as soon as the channel is dropped, so the close handler never runs for a closed channel.
- The repeated `isDataChannelReady()` check inside `initializeConversation` cannot fail once the first one passed, so it is not modelled as a separate branch.
- Time passing has no method in `App.Session`: it belongs to the event loop, not to a handler, and is modelled only as `Protocol.Elapse`.
- The `console.log` branch of the recovery-response timer has no effect on state and is not modelled.
- client/components/SessionControls.jsx and client/components/Button.jsx are not part of this model. They are presentation only.
- Properties.OpeningSequence: stated only for a session with no other timer pending when the channel opens. Other pending timers may fire in between and are not covered.
- Properties.RecoverableErrorRecovers: stated only for a session with no other timer pending when the error arrives.
- Properties.RunPreservesConsistent: the client as written does not keep `OwnedTracks`, because a failed start leaks the microphone (`Properties.LeakReachable`). Track ownership is proved only for the corrected client, by `Properties.RunReleasingPreservesValid`.
- Properties.NothingSentAfterStop: covers only timers firing; `Properties.QuietUntilRestart` covers any run without a start. After a restart, the old timers are stale and inert (`Properties.RestartOrphansTimers`, `Properties.StaleTimerInert`), but no single lemma covers arbitrary interleavings of the old timers with the new session's actions.
- Properties.GreetingThenResponse: stated only with the greeting timer alone pending and no response active. A stale timer left by a restart, or a response already active (a peer-conflict error sets the flag), is not covered; in the latter case the response stage sends no `response.create`.
- Properties.ConfigureThenConversation: stated only with the configuration timer alone pending and no response active, for the same reasons.
- Properties.ErrorDuringConfiguration: stated only with no timer pending when the channel opens. A stale timer left over from a previous session (after a restart) is not covered.
- Properties.ErrorThenConfigure: stated only with no timer pending when the channel opens, as above.
- Properties.OpenThenWait: stated only with no timer pending when the channel opens, as above.
- Properties.RecoveryRuns: stated only with the recovery timer alone pending. A live `InitialResponse` timer that fires first sets the response flag, and the recovery's own `response.create` is then skipped; that interleaving is not covered.

## Findings

| source | as written | input that shows it | evidently intended | confidence | as-written member | corrected member |
|---|---|---|---|---|---|---|
| client/components/App.jsx:44-83 | when the offer/answer exchange fails after `getUserMedia` succeeded, `peerConnection.current` was never assigned, so the `catch` block's `stopSession(true)` does not stop the microphone track, and no later stop can reach it | a start from an idle session whose SDP exchange fails (`Negotiation.ExchangeFailed`) | the half-built connection's tracks are stopped on failure, so no track keeps capturing | not executed | Properties.StartLeaksMicrophone | Properties.StartReleasingKeepsTracksOwned |
