/**
 * Fixed-delay `setTimeout` callbacks as explicit scheduled continuations.
 * A pending timer records the clock reading at which it becomes due and the
 * continuation it runs; the event loop runs the earliest due timer first and,
 * among timers due at the same moment, the one scheduled first.
 */
module Timers {

  /** The continuations the session schedules. */
  datatype Job =
    | ConfigureSession      // channel open + 300 ms: send `session.update`
    | StartConversation     // + 300 ms after that: `initializeConversation()`
    | InitialResponse       // + 300 ms after the system item: `createResponse()`
    | Recover               // error + 500 ms: `recoverSession()`
    | RecoveryResponse      // + 300 ms after the recovery item: `createResponse()`

  /**
   * A pending callback.  `channel` identifies the data channel that was current
   * when it was scheduled: the callback's closure acts on that channel.
   */
  datatype Timer = Timer(due: nat, job: Job, channel: nat)

  /** The index of the timer the event loop runs next. */
  function Earliest(ts: seq<Timer>): (k: nat)
    requires ts != []
    ensures k < |ts|
    ensures forall j :: 0 <= j < |ts| ==> ts[k].due <= ts[j].due
    ensures forall j :: 0 <= j < k ==> ts[j].due > ts[k].due
  {
    if |ts| == 1 then 0
    else
      var k := Earliest(ts[..|ts| - 1]);
      if ts[|ts| - 1].due < ts[k].due then |ts| - 1 else k
  }

  /** The pending timers once timer `k` has been taken off the queue. */
  function RemoveAt(ts: seq<Timer>, k: nat): seq<Timer>
    requires k < |ts|
  {
    ts[..k] + ts[k + 1..]
  }
}
