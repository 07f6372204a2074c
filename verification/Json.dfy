/** How long a record is on the wire: the compact JSON form of strings, numbers, lists and entries. */
module Json {
  import opened Basics
  import opened Entry
  import opened Payment

  /** Bytes one byte of a string takes: quotes, backslashes and the named controls are escaped with a
      backslash, the other controls with a four-digit code. */
  function EscapedLen(b: byte): nat {
    if b == 0x22 || b == 0x5C || 8 <= b <= 10 || 12 <= b <= 13 then 2
    else if b < 0x20 then 6
    else 1
  }

  /** A string between its quotes. */
  function TextLen(t: Text): nat { if t == [] then 2 else TextLen(t[..|t| - 1]) + EscapedLen(t[|t| - 1]) }

  function NumberLen(n: nat): nat { if n < 10 then 1 else NumberLen(n / 10) + 1 }

  /** Commas in a list of `n`. */
  function Commas(n: nat): nat { if n == 0 then 0 else n - 1 }

  function Total<T>(xs: seq<T>, len: T -> nat): nat {
    if xs == [] then 0 else Total(xs[..|xs| - 1], len) + len(xs[|xs| - 1])
  }

  /** A list between its brackets. */
  function ListLen<T>(xs: seq<T>, len: T -> nat): nat { 2 + Total(xs, len) + Commas(|xs|) }

  function KindLen(kind: AddressKind): nat { 2 + |kind.Token()| }

  function ViaLen(via: Provenance): nat {
    match via
    case Direct => 8
    case Relay => 7
    case Introducer => 12
    case Unknown => 9
  }

  /** `{"host":…,"port":…,"kind":…}` */
  function AddressLen(a: Address): nat { 25 + TextLen(a.host) + NumberLen(a.port as int) + KindLen(a.kind) }

  /** `,"payment":{"address":…,"spki":…,"sig":…}`, or nothing. */
  function PaymentLen(payment: Option<PaymentClaim>): nat {
    match payment
    case None => 0
    case Some(claim) => 38 + TextLen(claim.address) + TextLen(claim.spki) + TextLen(claim.sig)
  }

  /** `{"peer_id":…,"addresses":…,"network_id":…,"last_seen":…,"via":…,"flags":…}` */
  function EntryLen(e: PeerEntry): nat {
    68 + TextLen(e.peerId) + ListLen(e.addresses, AddressLen) + TextLen(e.networkId) + NumberLen(e.lastSeen)
    + ViaLen(e.via) + ListLen(e.flags, TextLen) + PaymentLen(e.payment)
  }

  predicate Plain(t: Text) { forall b | b in t :: EscapedLen(b) == 1 }

  /** Text without anything to escape is as long as it is, plus its quotes. */
  lemma {:induction false} PlainLen(t: Text)
    requires Plain(t)
    ensures TextLen(t) == |t| + 2
  {
    if t != [] { PlainLen(t[..|t| - 1]); }
  }

  lemma {:induction false} TotalAtMost<T>(xs: seq<T>, len: T -> nat, limit: nat)
    requires forall x | x in xs :: len(x) <= limit
    ensures Total(xs, len) <= |xs| * limit
  {
    if xs != [] {
      TotalAtMost(xs[..|xs| - 1], len, limit);
      assert |xs| * limit == (|xs| - 1) * limit + limit;
    }
  }

  lemma {:induction false} TotalOfEqual<T>(xs: seq<T>, len: T -> nat, size: nat)
    requires forall x | x in xs :: len(x) == size
    ensures Total(xs, len) == |xs| * size
  {
    if xs != [] {
      TotalOfEqual(xs[..|xs| - 1], len, size);
      assert |xs| * size == (|xs| - 1) * size + size;
    }
  }
}
