/**
 * Local media tracks and the peer connection's senders, reduced to what
 * teardown needs.  Every local track the session ever acquired is an entry of
 * a device table `seq<bool>` (true while the track is still capturing); a
 * sender refers to a track by its index in that table.
 */
module Media {
  import opened Wire

  /** An RTP sender of the peer connection; `track` is null when it carries none. */
  datatype Sender = Sender(track: Option<nat>)

  /** The peer connection as teardown sees it: the list `getSenders()` returns. */
  datatype Peer = Peer(senders: seq<Sender>)

  /** Some sender carries track `t`. */
  predicate Uses(senders: seq<Sender>, t: nat) {
    exists j :: 0 <= j < |senders| && senders[j].track == Some(t)
  }

  /** The device table after every track carried by `senders` has been stopped. */
  function Released(devices: seq<bool>, senders: seq<Sender>): seq<bool> {
    seq(|devices|, i requires 0 <= i < |devices| => devices[i] && !Uses(senders, i))
  }

  /**
   * `getSenders().forEach(sender => { if (sender.track) sender.track.stop(); })`:
   * stops exactly the tracks some sender carries and leaves every other track
   * as it was.
   */
  method StopSenderTracks(devices: seq<bool>, senders: seq<Sender>) returns (d: seq<bool>)
    ensures |d| == |devices|
    ensures forall i :: 0 <= i < |d| ==> (d[i] <==> devices[i] && !Uses(senders, i))
    ensures d == Released(devices, senders)
  {
    d := devices;
    for j := 0 to |senders|
      invariant |d| == |devices|
      invariant forall i :: 0 <= i < |d| ==> (d[i] <==> devices[i] && !Uses(senders[..j], i))
    {
      assert forall i: nat :: Uses(senders[..j + 1], i) <==> Uses(senders[..j], i) || senders[j].track == Some(i) by {
        forall i: nat ensures Uses(senders[..j + 1], i) <==> Uses(senders[..j], i) || senders[j].track == Some(i) {
          if Uses(senders[..j + 1], i) {
            var k :| 0 <= k < j + 1 && senders[..j + 1][k].track == Some(i);
            if k < j {
              assert senders[..j][k].track == Some(i);
            }
          }
          if Uses(senders[..j], i) {
            var k :| 0 <= k < j && senders[..j][k].track == Some(i);
            assert senders[..j + 1][k].track == Some(i);
          }
          if senders[j].track == Some(i) {
            assert senders[..j + 1][j].track == Some(i);
          }
        }
      }
      match senders[j].track
      case Some(t) =>
        if t < |d| {
          d := d[t := false];
        }
      case None =>
    }
    assert senders[..|senders|] == senders;
  }
}
