/** The four messages, the error codes, and the byte budget of a snapshot frame. The JSON encoder is
    an arbitrary function from an entry to the length of its encoding. */
module Wire {
  import opened Basics
  import opened Caps
  import opened Entry
  import opened Json

  datatype ErrorCode =
    | BadMessage | UnsupportedVersion | RateViolation | Oversized | NetworkMismatch | ProtocolViolation
  {
    function AsU16(): u16 {
      match this
      case BadMessage => 1
      case UnsupportedVersion => 2
      case RateViolation => 3
      case Oversized => 4
      case NetworkMismatch => 5
      case ProtocolViolation => 6
    }
  }

  datatype PexMessage =
    | PexHandshake(version: u32, networkId: Text, interval: u32, flags: seq<Text>)
    | PexSnapshot(peers: seq<PeerEntry>)
    | PexDelta(added: seq<PeerEntry>, dropped: seq<PeerId>)
    | PexError(code: u16)

  /** Bytes of one entry's JSON; `None` when it cannot be serialized. */
  type Encoder = PeerEntry -> Option<nat>

  /** `{"type":"pex_snapshot","peers":[]}` */
  const EMPTY_SNAPSHOT_BODY: nat := 34
  /** `{"type":"pex_delta","added":,"dropped":}` */
  const DELTA_ENVELOPE: nat := 40
  /** `{"type":"pex_handshake","version":,"network_id":,"interval":,"flags":}` */
  const HANDSHAKE_ENVELOPE: nat := 70
  const LENGTH_PREFIX: nat := 4

  ghost predicate Encodable(encoder: Encoder, peers: seq<PeerEntry>) {
    forall e :: e in peers ==> encoder(e).Some?
  }

  ghost function EntryBytes(encoder: Encoder, peers: seq<PeerEntry>): nat
    requires Encodable(encoder, peers)
  {
    if peers == [] then 0
    else EntryBytes(encoder, peers[..|peers| - 1]) + encoder(peers[|peers| - 1]).value
  }

  /** The JSON body: the envelope, the entries, and a comma between neighbours. */
  ghost function BodyLen(encoder: Encoder, peers: seq<PeerEntry>): nat
    requires Encodable(encoder, peers)
  {
    EMPTY_SNAPSHOT_BODY + EntryBytes(encoder, peers) + Commas(|peers|)
  }

  ghost function FrameLen(encoder: Encoder, peers: seq<PeerEntry>): nat
    requires Encodable(encoder, peers)
  {
    LENGTH_PREFIX + BodyLen(encoder, peers)
  }

  /** A prefix the trim is willing to keep: its frame stays a byte short of the bound. */
  ghost predicate WithinBudget(encoder: Encoder, peers: seq<PeerEntry>) {
    Encodable(encoder, peers) && (peers == [] || FrameLen(encoder, peers) < PEX_MAX_FRAME)
  }

  /** The longest prefix within budget. */
  ghost predicate IsTrimmed(encoder: Encoder, peers: seq<PeerEntry>, kept: seq<PeerEntry>) {
    && kept <= peers
    && WithinBudget(encoder, kept)
    && (kept < peers ==> !WithinBudget(encoder, peers[..|kept| + 1]))
  }

  method TrimToFrameBudget(encoder: Encoder, peers: seq<PeerEntry>) returns (kept: seq<PeerEntry>)
    ensures IsTrimmed(encoder, peers, kept)
  {
    var envelope := LENGTH_PREFIX + EMPTY_SNAPSHOT_BODY;
    var used := envelope;
    for i := 0 to |peers|
      invariant WithinBudget(encoder, peers[..i])
      invariant used == envelope + EntryBytes(encoder, peers[..i]) + i <= PEX_MAX_FRAME
    {
      assert peers[..i + 1][..i] == peers[..i];
      assert peers[..i + 1] == peers[..i] + [peers[i]];
      var len := encoder(peers[i]);
      var cost := if len.Some? then len.value + 1 else USIZE_MAX;
      var total := CheckedAddUsize(used, cost);
      if total.Some? && FrameWithinBound(total.value) {
        used := total.value;
      } else {
        assert len.None? ==> peers[i] in peers[..i + 1];
        return peers[..i];
      }
    }
    assert peers[..|peers|] == peers;
    kept := peers;
  }

  lemma {:induction false} PrefixWithinBudget(encoder: Encoder, peers: seq<PeerEntry>, n: nat)
    requires n <= |peers| && WithinBudget(encoder, peers)
    ensures WithinBudget(encoder, peers[..n])
    decreases |peers|
  {
    if n == |peers| {
      assert peers[..n] == peers;
    } else {
      var shorter := peers[..|peers| - 1];
      assert forall e :: e in shorter ==> e in peers;
      PrefixWithinBudget(encoder, shorter, n);
      assert shorter[..n] == peers[..n];
    }
  }

  /** The trim has one possible result, it is as long as any prefix within budget, and the frame it
      leaves is one the receiver's bound on the body accepts. */
  lemma TrimIsLongest(encoder: Encoder, peers: seq<PeerEntry>, kept: seq<PeerEntry>, n: nat)
    requires IsTrimmed(encoder, peers, kept) && n <= |peers|
    ensures WithinBudget(encoder, peers[..n]) <==> n <= |kept|
    ensures FrameLen(encoder, kept) <= PEX_MAX_FRAME
    ensures FrameWithinBound(BodyLen(encoder, kept))
  {
    if n <= |kept| {
      PrefixWithinBudget(encoder, kept, n);
      assert kept[..n] == peers[..n];
    } else if WithinBudget(encoder, peers[..n]) {
      assert peers[..n][..|kept| + 1] == peers[..|kept| + 1];
      PrefixWithinBudget(encoder, peers[..n], |kept| + 1);
    }
  }

  lemma TrimUnique(encoder: Encoder, peers: seq<PeerEntry>, k1: seq<PeerEntry>, k2: seq<PeerEntry>)
    requires IsTrimmed(encoder, peers, k1) && IsTrimmed(encoder, peers, k2)
    ensures k1 == k2
  {
    assert k1 == peers[..|k1|] && k2 == peers[..|k2|];
    TrimIsLongest(encoder, peers, k1, |k2|);
    TrimIsLongest(encoder, peers, k2, |k1|);
  }

  /** The receiver's bound on the body would accept a snapshot of these entries. */
  ghost predicate Acceptable(encoder: Encoder, peers: seq<PeerEntry>) {
    Encodable(encoder, peers) && FrameWithinBound(BodyLen(encoder, peers))
  }

  /** The body is acceptable, with less than the length prefix and one comma to spare. */
  ghost predicate JustFits(encoder: Encoder, peers: seq<PeerEntry>) {
    Acceptable(encoder, peers) && BodyLen(encoder, peers) >= PEX_MAX_FRAME - LENGTH_PREFIX
  }

  /** The trim counts the length prefix and one comma too many, neither of which the receiver's bound does,
      so it can cut an entry the receiver would have accepted. It leaves the longest prefix the receiver
      would accept if and only if no prefix of what there is to send has a body of one of the last five
      sizes accepted. Measured with the length prefix, it is the longest within the bound if and only if no
      prefix is exactly at it. */
  lemma TrimVersusReceiver(encoder: Encoder, peers: seq<PeerEntry>, kept: seq<PeerEntry>)
    requires IsTrimmed(encoder, peers, kept)
    ensures (forall n | 0 <= n <= |peers| && Acceptable(encoder, peers[..n]) :: n <= |kept|)
            <==> forall n | 0 < n <= |peers| :: !JustFits(encoder, peers[..n])
    ensures (forall n | 0 <= n <= |peers| && Encodable(encoder, peers[..n])
                        && FrameLen(encoder, peers[..n]) <= PEX_MAX_FRAME :: n <= |kept|)
            <==> forall n | 0 < n <= |peers| && Encodable(encoder, peers[..n]) ::
                   FrameLen(encoder, peers[..n]) != PEX_MAX_FRAME
  {
    forall n | 0 <= n <= |peers| ensures WithinBudget(encoder, peers[..n]) <==> n <= |kept| {
      TrimIsLongest(encoder, peers, kept, n);
    }
    hide EntryBytes, IsTrimmed;
  }

  // ----- whole messages -----

  /** The JSON body of a delta. */
  ghost function DeltaBodyLen(encoder: Encoder, added: seq<PeerEntry>, dropped: seq<PeerId>): nat
    requires Encodable(encoder, added)
  {
    DELTA_ENVELOPE + 2 + EntryBytes(encoder, added) + Commas(|added|) + ListLen(dropped, TextLen)
  }

  function HandshakeBodyLen(version: u32, networkId: Text, interval: u32, flags: seq<Text>): nat {
    HANDSHAKE_ENVELOPE + NumberLen(version) + TextLen(networkId) + NumberLen(interval) + ListLen(flags, TextLen)
  }

  /** The message encodes to a body the receiver's frame bound accepts. An error is a code and one of a
      few short fixed texts. */
  ghost predicate MessageFits(encoder: Encoder, msg: PexMessage) {
    match msg
    case PexHandshake(version, networkId, interval, flags) =>
      FrameWithinBound(HandshakeBodyLen(version, networkId, interval, flags))
    case PexSnapshot(peers) => Encodable(encoder, peers) && FrameWithinBound(BodyLen(encoder, peers))
    case PexDelta(added, dropped) =>
      Encodable(encoder, added) && FrameWithinBound(DeltaBodyLen(encoder, added, dropped))
    case PexError(_) => true
  }
}
