/** Per-link state: the record the engine updates in place, and its value. */
module State {
  import opened Basics
  import opened Advertise

  datatype RecvPhase = AwaitingHandshake | AwaitingSnapshot | Streaming {
    function Rank(): nat {
      match this
      case AwaitingHandshake => 0
      case AwaitingSnapshot => 1
      case Streaming => 2
    }
  }

  /** The value of one link's state, both directions. */
  datatype Link = Link(
    handshakeSent: bool,
    snapshotSent: bool,
    told: Told,
    lastDataSendMs: Option<nat>,
    sendJitterMs: nat,
    selfIntervalSecs: u32,
    lastBackoffAppliedMs: Option<nat>,
    phase: RecvPhase,
    remoteDeclaredSecs: Option<u32>,
    lastArrivalMs: Option<nat>,
    strikes: nat,
    muted: bool,
    received: map<PeerId, nat>)

  function FreshLink(interval: u32): Link {
    Link(false, false, map[], None, 0, interval, None, AwaitingHandshake, None, None, 0, false, map[])
  }

  class LinkState {
    var handshakeSent: bool
    var snapshotSent: bool
    var told: Told
    var lastDataSendMs: Option<nat>
    var sendJitterMs: nat
    var selfIntervalSecs: u32
    var lastBackoffAppliedMs: Option<nat>

    var phase: RecvPhase
    var remoteDeclaredSecs: Option<u32>
    var lastArrivalMs: Option<nat>
    var strikes: nat
    var muted: bool
    var received: map<PeerId, nat>

    ghost function Value(): Link
      reads this
    {
      Link(handshakeSent, snapshotSent, told, lastDataSendMs, sendJitterMs, selfIntervalSecs, lastBackoffAppliedMs,
           phase, remoteDeclaredSecs, lastArrivalMs, strikes, muted, received)
    }

    constructor (interval: u32)
      ensures Value() == FreshLink(interval)
    {
      handshakeSent, snapshotSent, told := false, false, map[];
      lastDataSendMs, sendJitterMs, selfIntervalSecs, lastBackoffAppliedMs := None, 0, interval, None;
      phase, remoteDeclaredSecs, lastArrivalMs := AwaitingHandshake, None, None;
      strikes, muted, received := 0, false, map[];
    }
  }
}
