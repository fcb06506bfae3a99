// The position store the poller publishes to and the quoting path reads.
module SharedPosition {

  class SharedPosition {
    var position: real
    var lastUpdateMs: nat
    var updateVersion: nat

    constructor ()
      ensures position == 0.0 && lastUpdateMs == 0 && updateVersion == 0
    {
      position, lastUpdateMs, updateVersion := 0.0, 0, 0;
    }

    /** Three stores in this order: a reader that sees the new version also sees
        the position published with it, and a fresh timestamp implies a position. */
    method Set(value: real, nowMs: nat)
      modifies this
      ensures position == value && lastUpdateMs == nowMs && updateVersion == old(updateVersion) + 1
    {
      position := value;
      lastUpdateMs := nowMs;
      updateVersion := updateVersion + 1;
    }

    /** Data that was never published is stale for every threshold. */
    method IsStale(nowMs: nat, thresholdMs: nat) returns (stale: bool)
      ensures stale <==> lastUpdateMs == 0 || nowMs > lastUpdateMs + thresholdMs
    {
      if lastUpdateMs == 0 {
        return true;
      }
      var age := if nowMs >= lastUpdateMs then nowMs - lastUpdateMs else 0;
      stale := age > thresholdMs;
    }
  }

  datatype PollResult = Reading(position: real) | PollError

  /** The readings among some poll results, in order. */
  function Readings(polls: seq<PollResult>): seq<real> {
    if polls == [] then []
    else
      var n := |polls| - 1;
      Readings(polls[..n]) + (if polls[n].Reading? then [polls[n].position] else [])
  }

  /** The sequential loop: one read is published before the next one starts, and
      a failed read publishes nothing. */
  method PollAndPublish(store: SharedPosition, polls: seq<PollResult>, nowMs: nat)
    modifies store
    ensures store.updateVersion == old(store.updateVersion) + |Readings(polls)|
    ensures store.position == if Readings(polls) == [] then old(store.position)
      else Readings(polls)[|Readings(polls)| - 1]
    ensures store.lastUpdateMs == if Readings(polls) == [] then old(store.lastUpdateMs) else nowMs
  {
    for n := 0 to |polls|
      invariant store.updateVersion == old(store.updateVersion) + |Readings(polls[..n])|
      invariant store.lastUpdateMs == if Readings(polls[..n]) == [] then old(store.lastUpdateMs) else nowMs
      invariant store.position ==
        if Readings(polls[..n]) == [] then old(store.position) else Readings(polls[..n])[|Readings(polls[..n])| - 1]
    {
      assert polls[..n + 1][..n] == polls[..n];
      match polls[n] {
        case Reading(value) => store.Set(value, nowMs);
        case PollError =>
      }
    }
    assert polls[..|polls|] == polls;
  }
}
