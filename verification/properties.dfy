/**
 * Properties of the session state machine: the invariant every handler keeps,
 * idempotent teardown, the staged configuration order after the channel opens,
 * the response guard, error recovery, timers outliving their channel, and the
 * microphone leak of the setup failure path.
 */
module Properties {
  import opened Wire
  import opened Media
  import opened Timers
  import opened Protocol

  // ---------------------------------------------------------------------------
  // The session invariant

  function IdOf(f: Frame): int {
    if f.eventId.Some? then f.eventId.value else -1
  }

  /** Every sent frame carries a generated id below `nextId`, in strictly increasing order. */
  ghost predicate WellNumbered(s: State) {
    && (forall i :: 0 <= i < |s.outbox| ==> 0 <= IdOf(s.outbox[i]) < s.nextId)
    && (forall i, j :: 0 <= i < j < |s.outbox| ==> IdOf(s.outbox[i]) < IdOf(s.outbox[j]))
  }

  /** No pending timer is due before the current clock reading. */
  ghost predicate TimersAhead(s: State) {
    forall i :: 0 <= i < |s.timers| ==> s.timers[i].due >= s.now
  }

  /** Every pending timer belongs to a data channel already created. */
  ghost predicate TimersOfKnownChannels(s: State) {
    forall i :: 0 <= i < |s.timers| ==> s.timers[i].channel <= s.channelId
  }

  /** What holds between any two handlers of the client. */
  ghost predicate Consistent(s: State) {
    && WellNumbered(s)
    && TimersAhead(s)
    && TimersOfKnownChannels(s)
    && !s.isConnecting
    && (s.isSessionActive <==> s.channel == Open)
    && (s.channel != NoChannel <==> s.peer.Some?)
    && (s.audioAttached ==> s.peer.Some?)
  }

  /** Every capturing local track is sent by the current peer connection, so teardown reaches it. */
  ghost predicate OwnedTracks(s: State) {
    forall i :: 0 <= i < |s.devices| && s.devices[i] ==> s.peer.Some? && Uses(s.peer.value.senders, i)
  }

  /** The invariant of the client once a failed start releases its half-built connection. */
  ghost predicate Valid(s: State) {
    Consistent(s) && OwnedTracks(s)
  }

  lemma InitialValid()
    ensures Valid(Initial)
  {
  }

  /** Two distinct sent frames never share an event id. */
  lemma EventIdsUnique(s: State, i: int, j: int)
    requires WellNumbered(s)
    requires 0 <= i < |s.outbox| && 0 <= j < |s.outbox| && i != j
    ensures s.outbox[i].eventId.Some? && s.outbox[i].eventId != s.outbox[j].eventId
  {
    if i < j {
      assert IdOf(s.outbox[i]) < IdOf(s.outbox[j]);
    } else {
      assert IdOf(s.outbox[j]) < IdOf(s.outbox[i]);
    }
  }

  lemma FreshKeepsNumbering(s: State, r: State)
    requires WellNumbered(s) && AtMostOneFresh(s, r)
    ensures WellNumbered(r)
  {
    if r.outbox != s.outbox || r.nextId != s.nextId {
      var n := |s.outbox|;
      forall i | 0 <= i < |r.outbox| ensures 0 <= IdOf(r.outbox[i]) < r.nextId {
        if i < n {
          assert r.outbox[i] == r.outbox[..n][i];
        }
      }
      forall i, j | 0 <= i < j < |r.outbox| ensures IdOf(r.outbox[i]) < IdOf(r.outbox[j]) {
        assert r.outbox[i] == r.outbox[..n][i];
        if j < n {
          assert r.outbox[j] == r.outbox[..n][j];
        }
      }
    }
  }

  /** Every action keeps the client consistent. */
  lemma StepPreservesConsistent(s: State, a: Action)
    requires Consistent(s)
    ensures Consistent(Step(s, a))
  {
    match a
    case UserStart(n) =>
      StartPreservesConsistent(s, n);
    case UserStop =>
    case ChannelOpened =>
      OpenPreservesConsistent(s);
    case ChannelFailed =>
      ChannelErrorPreservesConsistent(s);
    case ChannelClosed =>
      ClosePreservesConsistent(s);
    case FrameArrived(f) =>
      MessagePreservesConsistent(s, f);
    case RemoteTrack =>
      RemoteTrackPreservesConsistent(s);
    case TimerFired =>
      FirePreservesConsistent(s);
    case Wait(d) =>
      ElapsePreservesConsistent(s, d);
  }

  lemma StartPreservesConsistent(s: State, n: Negotiation)
    requires Consistent(s)
    ensures Consistent(Start(s, n))
  {
  }

  lemma OpenPreservesConsistent(s: State)
    requires Consistent(s)
    ensures Consistent(OnOpen(s))
  {
  }

  lemma ChannelErrorPreservesConsistent(s: State)
    requires Consistent(s)
    ensures Consistent(OnChannelError(s))
  {
  }

  lemma ClosePreservesConsistent(s: State)
    requires Consistent(s)
    ensures Consistent(OnClose(s))
  {
  }

  lemma RemoteTrackPreservesConsistent(s: State)
    requires Consistent(s)
    ensures Consistent(OnRemoteTrack(s))
  {
  }

  lemma MessagePreservesConsistent(s: State, frame: Option<Event>)
    requires Consistent(s)
    ensures Consistent(OnMessage(s, frame))
  {
  }

  /** Time passing keeps every pending timer ahead of the clock. */
  lemma ElapsePreservesConsistent(s: State, d: nat)
    requires Consistent(s)
    ensures Consistent(Elapse(s, d))
  {
  }

  lemma FirePreservesConsistent(s: State)
    requires Consistent(s)
    ensures Consistent(Fire(s))
    ensures Fire(s).now >= s.now
  {
    if s.timers != [] {
      var k := Earliest(s.timers);
      var t := s.timers[k];
      var s1 := s.(timers := RemoveAt(s.timers, k), now := t.due);
      TakeEarliestKeepsAhead(s, k);
      if t.channel == s.channelId {
        RunJobPreservesConsistent(s1, t.job);
      }
    }
  }

  /** Taking the earliest timer off the queue and moving the clock to its due time keeps the rest ahead. */
  lemma TakeEarliestKeepsAhead(s: State, k: nat)
    requires Consistent(s) && s.timers != [] && k == Earliest(s.timers)
    ensures Consistent(s.(timers := RemoveAt(s.timers, k), now := s.timers[k].due))
    ensures s.timers[k].due >= s.now
  {
    var s1 := s.(timers := RemoveAt(s.timers, k), now := s.timers[k].due);
    forall i | 0 <= i < |s1.timers| ensures s1.timers[i].due >= s1.now && s1.timers[i].channel <= s1.channelId {
      if i < k {
        assert s1.timers[i] == s.timers[i];
      } else {
        assert s1.timers[i] == s.timers[i + 1];
      }
    }
  }

  lemma RunJobPreservesConsistent(s: State, job: Job)
    requires Consistent(s)
    ensures Consistent(RunJob(s, job))
  {
    FreshKeepsNumbering(s, RunJob(s, job));
  }

  /** Every state reachable from a consistent one is consistent. */
  lemma {:induction false} RunPreservesConsistent(s: State, acts: seq<Action>)
    requires Consistent(s)
    ensures Consistent(Run(s, acts))
    decreases |acts|
  {
    if acts != [] {
      StepPreservesConsistent(s, acts[0]);
      RunPreservesConsistent(Step(s, acts[0]), acts[1..]);
    }
  }

  /** The client's active flag is exactly "the data channel is open", in every reachable state. */
  lemma ActiveIffOpen(acts: seq<Action>)
    ensures Run(Initial, acts).isSessionActive <==> Run(Initial, acts).channel == Open
    ensures !Run(Initial, acts).isConnecting
  {
    InitialValid();
    RunPreservesConsistent(Initial, acts);
  }

  // ---------------------------------------------------------------------------
  // Track ownership and the setup failure path

  /** A stop releases every capturing track, when they are all owned. */
  lemma StopReleasesAllTracks(s: State, clearLogs: bool)
    requires OwnedTracks(s)
    ensures forall i :: 0 <= i < |Stop(s, clearLogs).devices| ==> !Stop(s, clearLogs).devices[i]
  {
  }

  /**
   * A start whose offer/answer exchange fails leaves the microphone capturing
   * with no peer connection referencing it, and a later stop cannot release it.
   */
  lemma StartLeaksMicrophone(s: State, clearLogs: bool)
    requires OwnedTracks(s) && !Busy(s)
    ensures var r := Start(s, ExchangeFailed);
      && |r.devices| == |s.devices| + 1 && r.devices[|s.devices|] && r.peer == None
      && !OwnedTracks(r)
      && Stop(r, clearLogs).devices[|s.devices|]
  {
  }

  /** The leak is reachable: the first start of the client, failing its exchange, leaves the microphone live. */
  lemma LeakReachable()
    ensures var r := Run(Initial, [UserStart(ExchangeFailed)]);
      Consistent(r) && r.devices == [true] && r.peer == None && !OwnedTracks(r)
  {
    var r := Run(Initial, [UserStart(ExchangeFailed)]);
    assert r == Start(Initial, ExchangeFailed);
    InitialValid();
    StartPreservesConsistent(Initial, ExchangeFailed);
  }

  /**
   * Starting with the half-built connection released on failure keeps every
   * capturing track owned; after a failed start nothing captures at all.
   */
  lemma StartReleasingKeepsTracksOwned(s: State, n: Negotiation)
    requires OwnedTracks(s)
    ensures OwnedTracks(StartReleasing(s, n))
    ensures !Busy(s) && n != Negotiated ==>
      forall i :: 0 <= i < |StartReleasing(s, n).devices| ==> !StartReleasing(s, n).devices[i]
  {
    if !Busy(s) {
      var s0 := s.(isConnecting := true, connectionError := false);
      StopReleasesAllTracks(s0, false);
      var r := StartReleasing(s, n);
      if n == Negotiated {
        forall i | 0 <= i < |r.devices| && r.devices[i] ensures r.peer.Some? && Uses(r.peer.value.senders, i) {
          assert i == |s.devices|;
          assert r.peer.value.senders[0].track == Some(i);
        }
      }
    }
  }

  /** Every action other than a start keeps every capturing track owned. */
  lemma StepKeepsTracksOwned(s: State, a: Action)
    requires OwnedTracks(s) && !a.UserStart?
    ensures OwnedTracks(Step(s, a))
  {
    if a.UserStop? {
      StopReleasesAllTracks(s, true);
    }
  }

  /** The client with `startSession` releasing the half-built connection on failure. */
  function StepReleasing(s: State, a: Action): State {
    if a.UserStart? then StartReleasing(s, a.outcome) else Step(s, a)
  }

  function RunReleasing(s: State, acts: seq<Action>): State
    decreases |acts|
  {
    if acts == [] then s else RunReleasing(StepReleasing(s, acts[0]), acts[1..])
  }

  /** With the release on failure, every action keeps the client consistent and every capturing track owned. */
  lemma StepReleasingPreservesValid(s: State, a: Action)
    requires Valid(s)
    ensures Valid(StepReleasing(s, a))
  {
    if a.UserStart? {
      StartPreservesConsistent(s, a.outcome);
      StartReleasingKeepsTracksOwned(s, a.outcome);
    } else {
      StepPreservesConsistent(s, a);
      StepKeepsTracksOwned(s, a);
    }
  }

  /** With the release on failure, no reachable state has a capturing track teardown cannot reach. */
  lemma {:induction false} RunReleasingPreservesValid(s: State, acts: seq<Action>)
    requires Valid(s)
    ensures Valid(RunReleasing(s, acts))
    decreases |acts|
  {
    if acts != [] {
      StepReleasingPreservesValid(s, acts[0]);
      RunReleasingPreservesValid(StepReleasing(s, acts[0]), acts[1..]);
    }
  }

  // ---------------------------------------------------------------------------
  // Teardown

  /** A second stop changes nothing but the log. */
  lemma StopIdempotent(s: State, first: bool, second: bool)
    ensures var once := Stop(s, first);
      Stop(once, second) == once.(log := if second then [] else once.log + [Stopping])
  {
  }

  function StopTimes(s: State, clearLogs: bool, n: nat): State
    decreases n
  {
    if n == 0 then s else StopTimes(Stop(s, clearLogs), clearLogs, n - 1)
  }

  function Repeat(e: LogEntry, n: nat): seq<LogEntry> {
    seq(n, _ => e)
  }

  /** Any number of consecutive stops leaves the state of one stop, plus one log entry each. */
  lemma {:induction false} StopRepeated(s: State, clearLogs: bool, n: nat)
    requires n >= 1
    ensures StopTimes(s, clearLogs, n) ==
      Stop(s, clearLogs).(log := if clearLogs then [] else s.log + Repeat(Stopping, n))
    decreases n
  {
    var once := Stop(s, clearLogs);
    if n > 1 {
      StopRepeated(once, clearLogs, n - 1);
      StopIdempotent(s, clearLogs, clearLogs);
      assert [Stopping] + Repeat(Stopping, n - 1) == Repeat(Stopping, n);
      assert once.log + Repeat(Stopping, n - 1) == s.log + Repeat(Stopping, n) || clearLogs;
    } else {
      assert Repeat(Stopping, 1) == [Stopping];
    }
  }

  function FireTimes(s: State, n: nat): State
    decreases n
  {
    if n == 0 then s else FireTimes(Fire(s), n - 1)
  }

  /** Timers still pending when the channel is not open send nothing, however many fire. */
  lemma {:induction false} QuietWhileNotReady(s: State, n: nat)
    requires !Ready(s)
    ensures FireTimes(s, n).outbox == s.outbox && !Ready(FireTimes(s, n))
    decreases n
  {
    if n > 0 {
      QuietWhileNotReady(Fire(s), n - 1);
    }
  }

  /** After a stop, no continuation scheduled before it can send anything. */
  lemma NothingSentAfterStop(s: State, clearLogs: bool, n: nat)
    ensures FireTimes(Stop(s, clearLogs), n).outbox == s.outbox
  {
    QuietWhileNotReady(Stop(s, clearLogs), n);
  }

  /** Without a live channel, no action other than a start sends anything or revives a channel. */
  lemma IdleStepQuiet(s: State, a: Action)
    requires !Live(s.channel) && !a.UserStart?
    ensures !Live(Step(s, a).channel) && Step(s, a).outbox == s.outbox
  {
    if a.TimerFired? {
      assert SameConnection(s, Fire(s));
    } else if a.FrameArrived? {
      assert OnMessage(s, a.frame) == s;
    }
  }

  /** Without a live channel, no run free of starts sends anything. */
  lemma {:induction false} NothingSentWhileIdle(s: State, acts: seq<Action>)
    requires !Live(s.channel)
    requires forall i :: 0 <= i < |acts| ==> !acts[i].UserStart?
    ensures Run(s, acts).outbox == s.outbox
    decreases |acts|
  {
    if acts != [] {
      IdleStepQuiet(s, acts[0]);
      NothingSentWhileIdle(Step(s, acts[0]), acts[1..]);
    }
  }

  /**
   * After a stop, until the next start, nothing is sent: whatever timers fire,
   * frames arrive, channel events occur or time passes.
   */
  lemma QuietUntilRestart(s: State, clearLogs: bool, acts: seq<Action>)
    requires forall i :: 0 <= i < |acts| ==> !acts[i].UserStart?
    ensures Run(Stop(s, clearLogs), acts).outbox == s.outbox
  {
    NothingSentWhileIdle(Stop(s, clearLogs), acts);
  }

  /** A timer of an earlier data channel fires without effect: nothing is sent, logged or scheduled. */
  lemma StaleTimerInert(s: State)
    requires s.timers != [] && s.timers[Earliest(s.timers)].channel != s.channelId
    ensures var r := Fire(s);
      && r.outbox == s.outbox && r.nextId == s.nextId && r.log == s.log
      && r.hasActiveResponse == s.hasActiveResponse && r.connectionError == s.connectionError
      && |r.timers| == |s.timers| - 1 && r.now == s.timers[Earliest(s.timers)].due
  {
  }

  /** Data channels are never reused: the current channel's number never decreases. */
  lemma ChannelIdNeverDecreases(s: State, a: Action)
    ensures Step(s, a).channelId >= s.channelId
  {
    match a
    case UserStart(n) =>
    case UserStop =>
    case ChannelOpened =>
    case ChannelFailed =>
    case ChannelClosed =>
    case FrameArrived(f) =>
      assert OnMessage(s, f).channelId == s.channelId;
    case RemoteTrack =>
    case TimerFired =>
      assert SameConnection(s, Fire(s));
    case Wait(d) =>
  }

  lemma {:induction false} ChannelIdNeverDecreasesRun(s: State, acts: seq<Action>)
    ensures Run(s, acts).channelId >= s.channelId
    decreases |acts|
  {
    if acts != [] {
      ChannelIdNeverDecreases(s, acts[0]);
      ChannelIdNeverDecreasesRun(Step(s, acts[0]), acts[1..]);
    }
  }

  /**
   * A stop keeps the pending timers, and a start that creates a new data
   * channel makes every one of them belong to an earlier channel; from then
   * on they stay stale and fire without effect.
   */
  lemma RestartOrphansTimers(s: State, clearLogs: bool, n: Negotiation)
    requires Consistent(s)
    ensures var r := Start(Stop(s, clearLogs), n);
      && r.timers == s.timers
      && (!FailedEarly(n) ==> forall i :: 0 <= i < |r.timers| ==> r.timers[i].channel < r.channelId)
  {
  }

  /** The first session's channel opens and its first stage sends `session.update`. */
  lemma FirstStageSent()
    ensures var r := Fire(OnOpen(Start(Initial, Negotiated)));
      && |r.outbox| == 1 && r.outbox[0].body.SessionUpdate? && !r.isConnecting
      && r.timers == [Timer(r.now + StageDelay, StartConversation, r.channelId)]
  {
    var s2 := OnOpen(Start(Initial, Negotiated));
    assert Ready(s2) && s2.timers == [Timer(StageDelay, ConfigureSession, s2.channelId)];
    ConfigureFires(s2, StageDelay);
  }

  /**
   * A stop and a new session while the greeting of the old channel is
   * pending: once the new channel opens, the greeting comes due first and
   * sends nothing.
   */
  lemma RestartKeepsGreetingQuiet(s: State)
    requires !s.isConnecting && s.timers == [Timer(s.now + StageDelay, StartConversation, s.channelId)]
    ensures Fire(OnOpen(Start(Stop(s, true), Negotiated))).outbox == s.outbox
  {
    var s5 := Start(Stop(s, true), Negotiated);
    assert s5.channel == Connecting && s5.channelId == s.channelId + 1 && s5.outbox == s.outbox;
    var s6 := OnOpen(s5);
    assert s6.timers == [Timer(s.now + StageDelay, StartConversation, s.channelId),
                         Timer(s.now + StageDelay, ConfigureSession, s.channelId + 1)];
    assert Earliest(s6.timers) == 0;
    StaleTimerInert(s6);
  }

  /**
   * Start, open, first stage, stop, start, open, one timer: the greeting
   * scheduled for the first data channel fires while the second one is
   * current and sends nothing, so only the first channel's `session.update`
   * has gone out.
   */
  lemma StaleGreetingAfterRestart()
    ensures var r := Fire(OnOpen(Start(Stop(Fire(OnOpen(Start(Initial, Negotiated))), true), Negotiated)));
      |r.outbox| == 1 && r.outbox[0].body.SessionUpdate?
  {
    FirstStageSent();
    RestartKeepsGreetingQuiet(Fire(OnOpen(Start(Initial, Negotiated))));
  }

  // ---------------------------------------------------------------------------
  // The response guard

  /** Two `createResponse()` calls in a row: the second always refuses, and at most one frame goes out. */
  lemma CreateResponseTwice(s: State)
    ensures var first := CreateResponse(s);
      var second := CreateResponse(first.state);
      && !second.ok
      && |second.state.outbox| <= |s.outbox| + 1
      && (first.ok <==> |second.state.outbox| == |s.outbox| + 1)
  {
  }

  // ---------------------------------------------------------------------------
  // Staged configuration after the channel opens

  /** With a single timer pending, firing runs exactly that timer at its due time. */
  lemma FireOnly(s: State, t: Timer)
    requires s.timers == [t] && t.channel == s.channelId
    ensures Fire(s) == RunJob(s.(timers := [], now := t.due), t.job)
  {
    assert Earliest(s.timers) == 0;
    assert RemoveAt(s.timers, 0) == [];
  }

  /**
   * `r` is `s` after the single pending timer, due at `due`, ran on an open
   * channel, sent `frame` with the fresh id and left `next` pending.
   */
  ghost predicate StageSent(s: State, r: State, due: nat, frame: Body, next: seq<Timer>) {
    && Ready(r) && r.isSessionActive == s.isSessionActive && r.connectionError == s.connectionError
    && r.outbox == s.outbox + [Frame(frame, Some(s.nextId), None)]
    && r.nextId == s.nextId + 1 && r.now == due && r.timers == next && r.channelId == s.channelId
  }

  /** The open handler's first timer sends `session.update` and schedules the greeting. */
  lemma ConfigureFires(s: State, due: nat)
    requires Ready(s) && s.timers == [Timer(due, ConfigureSession, s.channelId)]
    ensures StageSent(s, Fire(s), due, SessionUpdate(ServerVad), [Timer(due + StageDelay, StartConversation, s.channelId)])
    ensures Fire(s).hasActiveResponse == s.hasActiveResponse
  {
    FireOnly(s, Timer(due, ConfigureSession, s.channelId));
  }

  /** The second timer sends the system greeting and schedules the first response. */
  lemma GreetingFires(s: State, due: nat)
    requires Ready(s) && s.timers == [Timer(due, StartConversation, s.channelId)]
    ensures StageSent(s, Fire(s), due, SystemMessage(Greeting), [Timer(due + StageDelay, InitialResponse, s.channelId)])
    ensures Fire(s).hasActiveResponse == s.hasActiveResponse
  {
    FireOnly(s, Timer(due, StartConversation, s.channelId));
  }

  /** A guarded `response.create` timer, with no response active, sends it and marks one active. */
  lemma ResponseFires(s: State, t: Timer)
    requires Ready(s) && !s.hasActiveResponse && s.timers == [t]
    requires t.job == InitialResponse || t.job == RecoveryResponse
    requires t.channel == s.channelId
    ensures StageSent(s, Fire(s), t.due, ResponseCreate, [])
    ensures Fire(s).hasActiveResponse
  {
    FireOnly(s, t);
  }

  /** The recovery timer sends the corrective system item and schedules the guarded response. */
  lemma RecoverFires(s: State, due: nat)
    requires Ready(s) && s.timers == [Timer(due, Recover, s.channelId)]
    ensures StageSent(s, Fire(s), due, SystemMessage(Recovery), [Timer(due + StageDelay, RecoveryResponse, s.channelId)])
    ensures !Fire(s).hasActiveResponse
  {
    FireOnly(s, Timer(due, Recover, s.channelId));
  }

  lemma FireTimesUnfold(s: State, n: nat)
    ensures FireTimes(s, n + 1) == FireTimes(Fire(s), n)
  {
  }

  /** The greeting timer, alone on an open channel, and the response timer it schedules. */
  lemma GreetingThenResponse(s: State, due: nat)
    requires Ready(s) && !s.hasActiveResponse && s.timers == [Timer(due, StartConversation, s.channelId)]
    ensures var r := FireTimes(s, 2);
      && r.outbox == s.outbox + [
           Frame(SystemMessage(Greeting), Some(s.nextId), None),
           Frame(ResponseCreate, Some(s.nextId + 1), None)]
      && r.timers == [] && r.now == due + StageDelay
      && r.isSessionActive == s.isSessionActive && r.connectionError == s.connectionError
      && r.hasActiveResponse
  {
    GreetingFires(s, due);
    var s1 := Fire(s);
    ResponseFires(s1, Timer(due + StageDelay, InitialResponse, s.channelId));
    FireTimesUnfold(s, 1);
    FireTimesUnfold(s1, 0);
  }

  /**
   * With nothing else pending, the three timers the open handler starts send
   * `session.update`, then the system greeting, then `response.create`, each
   * one stage later than the previous, and leave a response marked active.
   */
  lemma OpeningSequence(s: State)
    requires s.channel == Connecting && s.timers == []
    ensures var r := FireTimes(OnOpen(s), 3);
      && r.outbox == s.outbox + [
           Frame(SessionUpdate(ServerVad), Some(s.nextId), None),
           Frame(SystemMessage(Greeting), Some(s.nextId + 1), None),
           Frame(ResponseCreate, Some(s.nextId + 2), None)]
      && r.timers == [] && r.now == s.now + 3 * StageDelay
      && r.isSessionActive && !r.connectionError && r.hasActiveResponse
  {
    var s1 := OnOpen(s);
    assert Ready(s1) && !s1.hasActiveResponse && s1.timers == [Timer(s.now + StageDelay, ConfigureSession, s1.channelId)];
    ConfigureThenConversation(s1, s.now + StageDelay);
  }

  /** The configuration timer, alone on an open channel, and the two stages it leads to. */
  lemma ConfigureThenConversation(s: State, due: nat)
    requires Ready(s) && !s.hasActiveResponse && s.timers == [Timer(due, ConfigureSession, s.channelId)]
    ensures var r := FireTimes(s, 3);
      && r.outbox == s.outbox + [
           Frame(SessionUpdate(ServerVad), Some(s.nextId), None),
           Frame(SystemMessage(Greeting), Some(s.nextId + 1), None),
           Frame(ResponseCreate, Some(s.nextId + 2), None)]
      && r.timers == [] && r.now == due + 2 * StageDelay
      && r.isSessionActive == s.isSessionActive && r.connectionError == s.connectionError
      && r.hasActiveResponse
  {
    ConfigureFires(s, due);
    GreetingThenResponse(Fire(s), due + StageDelay);
    FireTimesUnfold(s, 2);
  }

  // ---------------------------------------------------------------------------
  // Error recovery

  /** A recoverable error on an open channel logs, keeps the flags and schedules the recovery. */
  lemma RecoverableErrorHandled(s: State, ev: Event)
    requires Ready(s) && Classify(ev) == Recoverable
    ensures var r := OnMessage(s, Some(ev));
      && Ready(r) && r.isSessionActive == s.isSessionActive
      && r.connectionError == s.connectionError && r.hasActiveResponse == s.hasActiveResponse
      && r.outbox == s.outbox && r.nextId == s.nextId && r.now == s.now && r.channelId == s.channelId
      && r.timers == s.timers + [Timer(s.now + RecoverDelay, Recover, s.channelId)]
  {
    assert OnMessage(s, Some(ev)) == Dispatch(Log(s, Received), ev);
  }

  /**
   * A recoverable error arriving `d` ms after the channel opened, before the
   * configuration stage: `session.update` goes out first, and the next frame
   * is the recovery item when its 500 ms delay ends no later than the
   * greeting's stage, and the greeting otherwise.
   */
  lemma ErrorDuringConfiguration(s: State, ev: Event, d: nat)
    requires s.channel == Connecting && s.timers == [] && Classify(ev) == Recoverable && d < StageDelay
    ensures var r := Fire(Fire(OnMessage(Elapse(OnOpen(s), d), Some(ev))));
      && r.outbox == s.outbox + [
           Frame(SessionUpdate(ServerVad), Some(s.nextId), None),
           Frame(SystemMessage(if d + RecoverDelay <= 2 * StageDelay then Recovery else Greeting), Some(s.nextId + 1), None)]
  {
    ErrorThenConfigure(s, ev, d);
    var s4 := Fire(OnMessage(Elapse(OnOpen(s), d), Some(ev)));
    SecondStage(s4, s.now + d + RecoverDelay, s.now + 2 * StageDelay);
    var second := Frame(SystemMessage(if d + RecoverDelay <= 2 * StageDelay then Recovery else Greeting), Some(s.nextId + 1), None);
    var first := Frame(SessionUpdate(ServerVad), Some(s.nextId), None);
    assert s4.outbox == s.outbox + [first];
    assert Fire(s4).outbox == s4.outbox + [second];
    assert s.outbox + [first] + [second] == s.outbox + [first, second];
  }

  /** The error's recovery is queued, then the configuration stage runs and queues the greeting behind it. */
  lemma ErrorThenConfigure(s: State, ev: Event, d: nat)
    requires s.channel == Connecting && s.timers == [] && Classify(ev) == Recoverable && d < StageDelay
    ensures var r := Fire(OnMessage(Elapse(OnOpen(s), d), Some(ev)));
      && Ready(r) && r.nextId == s.nextId + 1
      && r.outbox == s.outbox + [Frame(SessionUpdate(ServerVad), Some(s.nextId), None)]
      && r.timers == [Timer(s.now + d + RecoverDelay, Recover, r.channelId),
                      Timer(s.now + 2 * StageDelay, StartConversation, r.channelId)]
  {
    var s2 := Elapse(OnOpen(s), d);
    OpenThenWait(s, d);
    RecoverableErrorHandled(s2, ev);
    ConfigureBeforeRecovery(OnMessage(s2, Some(ev)), s.now + StageDelay, s.now + d + RecoverDelay);
  }

  /** The channel opens and `d` ms pass, less than a stage: only the configuration timer is pending. */
  lemma OpenThenWait(s: State, d: nat)
    requires s.channel == Connecting && s.timers == [] && d < StageDelay
    ensures var r := Elapse(OnOpen(s), d);
      && Ready(r) && r.now == s.now + d && r.outbox == s.outbox && r.nextId == s.nextId
      && r.timers == [Timer(s.now + StageDelay, ConfigureSession, r.channelId)]
  {
  }

  /** Configuration due before a pending recovery: it runs first and the greeting is queued behind the recovery. */
  lemma ConfigureBeforeRecovery(s: State, due: nat, recover: nat)
    requires Ready(s) && due < recover
    requires s.timers == [Timer(due, ConfigureSession, s.channelId), Timer(recover, Recover, s.channelId)]
    ensures var r := Fire(s);
      && Ready(r) && r.channelId == s.channelId && r.nextId == s.nextId + 1
      && r.outbox == s.outbox + [Frame(SessionUpdate(ServerVad), Some(s.nextId), None)]
      && r.timers == [Timer(recover, Recover, s.channelId), Timer(due + StageDelay, StartConversation, s.channelId)]
  {
    assert Earliest(s.timers) == 0;
    assert RemoveAt(s.timers, 0) == [Timer(recover, Recover, s.channelId)];
  }

  /** Recovery and greeting both pending: the earlier one, the recovery on a tie, sends its system item. */
  lemma SecondStage(s: State, recover: nat, greet: nat)
    requires Ready(s)
    requires s.timers == [Timer(recover, Recover, s.channelId), Timer(greet, StartConversation, s.channelId)]
    ensures Fire(s).outbox == s.outbox + [Frame(SystemMessage(if recover <= greet then Recovery else Greeting), Some(s.nextId), None)]
  {
    if recover <= greet {
      assert Earliest(s.timers) == 0;
    } else {
      assert Earliest(s.timers) == 1;
    }
  }

  /**
   * A pending recovery timer, alone on an open channel: it sends the corrective
   * system item, and one stage later a single `response.create`.
   */
  lemma RecoveryRuns(r: State, due: nat)
    requires Ready(r) && r.timers == [Timer(due, Recover, r.channelId)]
    ensures StageSent(r, Fire(r), due, SystemMessage(Recovery), [Timer(due + StageDelay, RecoveryResponse, r.channelId)])
    ensures !Fire(r).hasActiveResponse
    ensures var r2 := FireTimes(r, 2);
      && r2.outbox == r.outbox + [
           Frame(SystemMessage(Recovery), Some(r.nextId), None),
           Frame(ResponseCreate, Some(r.nextId + 1), None)]
      && r2.connectionError == r.connectionError && r2.hasActiveResponse && r2.timers == []
  {
    RecoverFires(r, due);
    var r1 := Fire(r);
    ResponseFires(r1, Timer(due + StageDelay, RecoveryResponse, r.channelId));
    var r2 := Fire(r1);
    FireTimesUnfold(r, 1);
    FireTimesUnfold(r1, 0);
    assert FireTimes(r, 2) == r2;
  }

  /**
   * A recoverable parameter error on an open channel with nothing pending:
   * the error flag is untouched, 500 ms later exactly one corrective system
   * item is sent, and one stage after that a single `response.create`.
   */
  lemma RecoverableErrorRecovers(s: State, ev: Event)
    requires Ready(s) && s.timers == [] && Classify(ev) == Recoverable
    ensures var r1 := OnMessage(s, Some(ev));
      && r1.connectionError == s.connectionError && r1.outbox == s.outbox
      && r1.timers == [Timer(s.now + RecoverDelay, Recover, s.channelId)]
    ensures var r2 := Fire(OnMessage(s, Some(ev)));
      && r2.outbox == s.outbox + [Frame(SystemMessage(Recovery), Some(s.nextId), None)]
      && r2.connectionError == s.connectionError && !r2.hasActiveResponse
    ensures var r3 := FireTimes(OnMessage(s, Some(ev)), 2);
      && r3.outbox == s.outbox + [
           Frame(SystemMessage(Recovery), Some(s.nextId), None),
           Frame(ResponseCreate, Some(s.nextId + 1), None)]
      && r3.connectionError == s.connectionError && r3.hasActiveResponse && r3.timers == []
  {
    var r1 := OnMessage(s, Some(ev));
    RecoverableErrorHandled(s, ev);
    RecoveryRuns(r1, s.now + RecoverDelay);
    assert r1.outbox == s.outbox && r1.nextId == s.nextId && r1.connectionError == s.connectionError;
  }

  /** Only a stop or a start (whose teardown may clear it) removes entries from the log. */
  lemma LogOnlyGrows(s: State, a: Action)
    requires !a.UserStop? && !a.UserStart?
    ensures s.log <= Step(s, a).log
  {
  }
}
