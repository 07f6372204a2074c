/** The JSON text itself, byte by byte, so that what is elsewhere counted is counted of something. */
module Written {
  import opened Basics
  import opened Payment
  import opened Entry
  import opened Json
  import opened Wire

  /** One byte between quotes: a quote, a backslash and five controls have names, the other controls a
      four-digit code. */
  function Escaped(b: byte): Text {
    if b == 0x22 then Ascii("\\\"")
    else if b == 0x5C then Ascii("\\\\")
    else if b == 8 then Ascii("\\b")
    else if b == 9 then Ascii("\\t")
    else if b == 10 then Ascii("\\n")
    else if b == 12 then Ascii("\\f")
    else if b == 13 then Ascii("\\r")
    else if b < 0x20 then Ascii("\\u00") + Hex([b])
    else [b]
  }

  function Escapes(t: Text): Text { if t == [] then [] else Escapes(t[..|t| - 1]) + Escaped(t[|t| - 1]) }

  function Quoted(t: Text): Text { Ascii("\"") + Escapes(t) + Ascii("\"") }

  function Digits(n: nat): Text { if n < 10 then [(48 + n) as byte] else Digits(n / 10) + [(48 + n % 10) as byte] }

  function Joined<T>(xs: seq<T>, write: T -> Text): Text {
    if xs == [] then []
    else Joined(xs[..|xs| - 1], write) + (if |xs| == 1 then [] else Ascii(",")) + write(xs[|xs| - 1])
  }

  function List<T>(xs: seq<T>, write: T -> Text): Text { Ascii("[") + Joined(xs, write) + Ascii("]") }

  function ViaToken(via: Provenance): Text {
    match via
    case Direct => Ascii("direct")
    case Relay => Ascii("relay")
    case Introducer => Ascii("introducer")
    case Unknown => Ascii("unknown")
  }

  function AddressText(a: Address): Text {
    Ascii("{\"host\":") + Quoted(a.host) + Ascii(",\"port\":") + Digits(a.port as int)
    + Ascii(",\"kind\":\"") + a.kind.Token() + Ascii("\"}")
  }

  /** An absent claim is left out altogether. */
  function PaymentText(payment: Option<PaymentClaim>): Text {
    match payment
    case None => []
    case Some(claim) =>
      Ascii(",\"payment\":{\"address\":") + Quoted(claim.address) + Ascii(",\"spki\":") + Quoted(claim.spki)
      + Ascii(",\"sig\":") + Quoted(claim.sig) + Ascii("}")
  }

  function EntryText(e: PeerEntry): Text {
    Ascii("{") + WhoAndWhere(e) + WhenAndHow(e) + PaymentText(e.payment) + Ascii("}")
  }

  function WhoAndWhere(e: PeerEntry): Text {
    Ascii("\"peer_id\":") + Quoted(e.peerId) + Ascii(",\"addresses\":") + List(e.addresses, AddressText)
    + Ascii(",\"network_id\":") + Quoted(e.networkId)
  }

  function WhenAndHow(e: PeerEntry): Text {
    Ascii(",\"last_seen\":") + Digits(e.lastSeen) + Ascii(",\"via\":\"") + ViaToken(e.via)
    + Ascii("\",\"flags\":") + List(e.flags, Quoted)
  }

  function HandshakeText(version: u32, networkId: Text, interval: u32, flags: seq<Text>): Text {
    Ascii("{\"type\":\"pex_handshake\",\"version\":") + Digits(version) + Ascii(",\"network_id\":") + Quoted(networkId)
    + Ascii(",\"interval\":") + Digits(interval) + Ascii(",\"flags\":") + List(flags, Quoted) + Ascii("}")
  }

  function SnapshotText(peers: seq<PeerEntry>): Text {
    Ascii("{\"type\":\"pex_snapshot\",\"peers\":") + List(peers, EntryText) + Ascii("}")
  }

  function DeltaText(added: seq<PeerEntry>, dropped: seq<PeerId>): Text {
    Ascii("{\"type\":\"pex_delta\",\"added\":") + List(added, EntryText)
    + Ascii(",\"dropped\":") + List(dropped, Quoted) + Ascii("}")
  }

  function MessageText(msg: PexMessage): Text
    requires !msg.PexError?
  {
    match msg
    case PexHandshake(version, networkId, interval, flags) => HandshakeText(version, networkId, interval, flags)
    case PexSnapshot(peers) => SnapshotText(peers)
    case PexDelta(added, dropped) => DeltaText(added, dropped)
  }

  // ----- the lengths counted are the lengths written -----

  lemma EscapedIsLong(b: byte)
    ensures |Escaped(b)| == EscapedLen(b)
  {
  }

  lemma {:induction false} EscapesLen(t: Text)
    ensures |Escapes(t)| + 2 == TextLen(t)
  {
    hide Escaped, EscapedLen;
    if t != [] {
      EscapesLen(t[..|t| - 1]);
      EscapedIsLong(t[|t| - 1]);
    }
  }

  lemma QuotedLen(t: Text)
    ensures |Quoted(t)| == TextLen(t)
  {
    EscapesLen(t);
  }

  lemma {:induction false} DigitsLen(n: nat)
    ensures |Digits(n)| == NumberLen(n)
  {
    if n >= 10 { DigitsLen(n / 10); }
  }

  lemma {:induction false} JoinedLen<T>(xs: seq<T>, write: T -> Text, len: T -> nat)
    requires forall x | x in xs :: |write(x)| == len(x)
    ensures |Joined(xs, write)| == Total(xs, len) + Commas(|xs|)
  {
    if xs != [] { JoinedLen(xs[..|xs| - 1], write, len); }
  }

  lemma ListLength<T>(xs: seq<T>, write: T -> Text, len: T -> nat)
    requires forall x | x in xs :: |write(x)| == len(x)
    ensures |List(xs, write)| == ListLen(xs, len)
  {
    JoinedLen(xs, write, len);
  }

  lemma AddressTextLen(a: Address)
    ensures |AddressText(a)| == AddressLen(a)
  {
    hide Quoted, TextLen;
    QuotedLen(a.host);
    DigitsLen(a.port as int);
  }

  lemma PaymentTextLen(payment: Option<PaymentClaim>)
    ensures |PaymentText(payment)| == PaymentLen(payment)
  {
    hide Quoted, TextLen;
    if payment.Some? {
      QuotedLen(payment.value.address);
      QuotedLen(payment.value.spki);
      QuotedLen(payment.value.sig);
    }
  }

  lemma FlagsLen(flags: seq<Text>)
    ensures |List(flags, Quoted)| == ListLen(flags, TextLen)
  {
    forall f | f in flags ensures |Quoted(f)| == TextLen(f) { QuotedLen(f); }
    ListLength(flags, Quoted, TextLen);
  }

  lemma WhoLen(e: PeerEntry)
    ensures |WhoAndWhere(e)| == 37 + TextLen(e.peerId) + ListLen(e.addresses, AddressLen) + TextLen(e.networkId)
  {
    forall a | a in e.addresses ensures |AddressText(a)| == AddressLen(a) { AddressTextLen(a); }
    ListLength(e.addresses, AddressText, AddressLen);
    hide Quoted, TextLen, List, ListLen, Ascii;
    QuotedLen(e.peerId);
    QuotedLen(e.networkId);
  }

  lemma WhenLen(e: PeerEntry)
    ensures |WhenAndHow(e)| == 29 + NumberLen(e.lastSeen) + ViaLen(e.via) + ListLen(e.flags, TextLen)
  {
    hide List, ListLen, Digits, NumberLen;
    DigitsLen(e.lastSeen);
    FlagsLen(e.flags);
  }

  lemma EntryTextLen(e: PeerEntry)
    ensures |EntryText(e)| == EntryLen(e)
  {
    hide WhoAndWhere, WhenAndHow, TextLen, ListLen, NumberLen, ViaLen, PaymentText, PaymentLen;
    WhoLen(e);
    WhenLen(e);
    PaymentTextLen(e.payment);
  }

  lemma {:induction false} EntryBytesTotal(encoder: Encoder, peers: seq<PeerEntry>)
    requires forall e :: encoder(e) == Some(EntryLen(e))
    ensures EntryBytes(encoder, peers) == Total(peers, EntryLen)
  {
    if peers != [] { EntryBytesTotal(encoder, peers[..|peers| - 1]); }
  }

  lemma EntriesLen(encoder: Encoder, peers: seq<PeerEntry>)
    requires forall e :: encoder(e) == Some(EntryLen(e))
    ensures |List(peers, EntryText)| == 2 + EntryBytes(encoder, peers) + Commas(|peers|)
  {
    hide EntryText, EntryLen;
    forall e | e in peers ensures |EntryText(e)| == EntryLen(e) { EntryTextLen(e); }
    ListLength(peers, EntryText, EntryLen);
    EntryBytesTotal(encoder, peers);
  }

  /** With the JSON encoder, a handshake, a snapshot or a delta fits if and only if the text of it is within
      the bound on a frame. */
  lemma FitsIffTextDoes(encoder: Encoder, msg: PexMessage)
    requires (forall e :: encoder(e) == Some(EntryLen(e))) && !msg.PexError?
    ensures MessageFits(encoder, msg) <==> |MessageText(msg)| <= 262_144
  {
    hide List, Quoted, TextLen, EntryText, EntryLen, EntryBytes;
    match msg
    case PexHandshake(version, networkId, interval, flags) =>
      DigitsLen(version);
      QuotedLen(networkId);
      DigitsLen(interval);
      FlagsLen(flags);
      hide Digits, NumberLen, ListLen;
    case PexSnapshot(peers) => EntriesLen(encoder, peers);
    case PexDelta(added, dropped) =>
      EntriesLen(encoder, added);
      FlagsLen(dropped);
      hide ListLen;
  }
}
