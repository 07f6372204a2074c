/** The peer entry: receiver-side validation, the clamp on a future `last_seen`, and the canonical
    content a fingerprint is taken over. */
module Entry {
  import opened Basics
  import opened Caps
  import opened Payment
  import Sorting

  datatype AddressKind = Direct | Mapped | Reflexive | Relay | Unknown {
    function Token(): Text {
      match this
      case Direct => Ascii("direct")
      case Mapped => Ascii("mapped")
      case Reflexive => Ascii("reflexive")
      case Relay => Ascii("relay")
      case Unknown => Ascii("unknown")
    }

    predicate IsRegistered() { !Unknown? }
  }

  datatype Provenance = Direct | Relay | Introducer | Unknown {
    predicate IsRegistered() { !Unknown? }
  }

  datatype Address = Address(host: Text, port: u16, kind: AddressKind) {
    predicate IsValid() { host != [] && port != 0 && kind.IsRegistered() }
  }

  datatype PeerEntry = PeerEntry(
    peerId: PeerId,
    addresses: seq<Address>,
    networkId: Text,
    lastSeen: nat,
    via: Provenance,
    flags: seq<Text>,
    payment: Option<PaymentClaim>)
  {
    function Clamped(nowSecs: nat): PeerEntry {
      if lastSeen > nowSecs then this.(lastSeen := nowSecs) else this
    }

    function VerifiedPaymentAddress(crypto: Crypto): PaymentResult {
      match payment
      case None => Err(NotPresent)
      case Some(claim) => Verify(claim, peerId, networkId, crypto)
    }
  }

  /** A record yields a payee only from a claim of its own, attested by a key that hashes to its peer,
      and those attested bytes can name no other peer, network or address. */
  lemma PayeeIsAttested(e: PeerEntry, crypto: Crypto, p: Text, n: Text, a: Text)
    requires e.VerifiedPaymentAddress(crypto).Ok?
    requires |e.networkId| <= U32_MAX && |p| <= U32_MAX && |n| <= U32_MAX && |a| <= U32_MAX
    ensures var payee := e.VerifiedPaymentAddress(crypto).address;
            && e.payment.Some? && payee == e.payment.value.address
            && Attested(crypto, e.peerId, SigningBytes(e.peerId, e.networkId, payee))
            && (SigningBytes(p, n, a) == SigningBytes(e.peerId, e.networkId, payee)
                <==> p == e.peerId && n == e.networkId && a == payee)
  {
    VerifiedAddressIsTheOnlyOne(e.payment.value, e.peerId, e.networkId, crypto);
  }

  /** When a record has a payee: exactly when it carries a claim within the caps that decodes, whose key
      hashes to the record's own identity and signed its identity, its network and the address. */
  lemma PayeeIff(e: PeerEntry, crypto: Crypto)
    ensures e.VerifiedPaymentAddress(crypto) == Err(NotPresent) <==> e.payment == None
    ensures e.VerifiedPaymentAddress(crypto).Ok?
            <==> && e.payment.Some?
                 && var claim := e.payment.value;
                 var spki, sig := crypto.decodeBase64(claim.spki), crypto.decodeBase64(claim.sig);
                 && |claim.address| <= 128 && |claim.spki| <= 512 && |claim.sig| <= 256 && spki.Some? && sig.Some?
                 && Spells(e.peerId, crypto.sha256(spki.value))
                 && crypto.verifySignature(spki.value, SigningBytes(e.peerId, e.networkId, claim.address), sig.value)
  {
    hide Spells, SigningBytes;
    if e.payment.Some? { VerifiesIff(e.payment.value, e.peerId, e.networkId, crypto); }
  }

  // ----- validation -----

  datatype EntrySkip =
    | BadPeerId | SelfOrPartner | TooManyAddresses | BadAddress | TooManyFlags
    | NetworkMismatch | BadVia | OversizePayment | TooOld

  datatype ValidateCtx = ValidateCtx(receiver: PeerId, sender: PeerId, networkId: Text, nowSecs: nat)

  /** `None` keeps the entry; otherwise the reason it is skipped. */
  function Validate(e: PeerEntry, ctx: ValidateCtx): Option<EntrySkip> {
    if !IsHex64(e.peerId) then Some(BadPeerId)
    else if e.peerId == ctx.receiver || e.peerId == ctx.sender then Some(SelfOrPartner)
    else if |e.addresses| > PEX_MAX_ADDRESSES then Some(TooManyAddresses)
    else if exists a :: a in e.addresses && !a.IsValid() then Some(BadAddress)
    else if |e.flags| > PEX_MAX_FLAGS || exists f :: f in e.flags && |f| > PEX_MAX_FLAG_LEN then Some(TooManyFlags)
    else if e.networkId != ctx.networkId then Some(NetworkMismatch)
    else if !e.via.IsRegistered() then Some(BadVia)
    else if e.payment.Some? && !e.payment.value.WithinCaps() then Some(OversizePayment)
    else if e.lastSeen < ctx.nowSecs && ctx.nowSecs - e.lastSeen > PEX_MAX_ENTRY_AGE then Some(TooOld)
    else None
  }

  predicate IsKept(e: PeerEntry, ctx: ValidateCtx) { Validate(e, ctx).None? }

  /** Every rule for entries, in no particular order: an id of 64 lowercase hexadecimal digits that names
      neither end, the network of the link, at most 8 usable addresses and 8 flags of 32 bytes, a known
      provenance, a payment claim within its caps, and no more than 1800 s of age. */
  predicate Conformant(e: PeerEntry, ctx: ValidateCtx) {
    && |e.peerId| == 64 && (forall i | 0 <= i < 64 :: 48 <= e.peerId[i] <= 57 || 97 <= e.peerId[i] <= 102)
    && e.peerId !in {ctx.receiver, ctx.sender} && e.networkId == ctx.networkId
    && |e.addresses| <= 8 && |e.flags| <= 8
    && (forall a | a in e.addresses :: |a.host| > 0 && a.port != 0 && !a.kind.Unknown?)
    && (forall f | f in e.flags :: |f| <= 32)
    && !e.via.Unknown?
    && (e.payment.Some? ==>
          var claim := e.payment.value; |claim.address| <= 128 && |claim.spki| <= 512 && |claim.sig| <= 256)
    && ctx.nowSecs <= e.lastSeen + 1800
  }

  /** An entry is kept exactly when it meets every rule, whatever order they are tried in. Clamped, it is
      dated within the last half hour of the receiver's clock and names neither end of the link, and its
      payment claim, good or bad, had no say in keeping it. */
  lemma KeptEntryIsBounded(e: PeerEntry, ctx: ValidateCtx, claim: PaymentClaim)
    ensures IsKept(e, ctx) <==> Conformant(e, ctx)
    ensures IsKept(e, ctx) ==>
              var c := e.Clamped(ctx.nowSecs);
              && c == e.(lastSeen := Min(e.lastSeen, ctx.nowSecs))
              && c.lastSeen <= ctx.nowSecs <= c.lastSeen + PEX_MAX_ENTRY_AGE
              && c.peerId == e.peerId != ctx.receiver && c.peerId != ctx.sender && IsHex64(c.peerId)
    ensures IsKept(e, ctx) && claim.WithinCaps() ==> IsKept(e.(payment := Some(claim)), ctx)
    ensures IsKept(e, ctx) ==> IsKept(e.(payment := None), ctx)
  {
    var with, without := e.(payment := Some(claim)), e.(payment := None);
    assert with.addresses == without.addresses == e.addresses;
    assert with.flags == without.flags == e.flags;
  }

  // ----- canonical content -----

  predicate AddressLess(a: Address, b: Address) {
    || TextLess(a.host, b.host)
    || (a.host == b.host && a.port < b.port)
    || (a.host == b.host && a.port == b.port && TextLess(a.kind.Token(), b.kind.Token()))
  }

  predicate AddressLeq(a: Address, b: Address) { a == b || AddressLess(a, b) }

  lemma TokenInjective(j: AddressKind, k: AddressKind)
    ensures j.Token() == k.Token() ==> j == k
  {
    assert j.Token() == k.Token() ==> |j.Token()| == |k.Token()| && j.Token()[0] == k.Token()[0];
  }

  lemma TextTotalOrder()
    ensures Sorting.TotalOrder(TextLeq)
  {
    forall x, y ensures TextLeq(x, y) || TextLeq(y, x) { TextLessTotal(x, y); }
    forall x, y | TextLeq(x, y) && TextLeq(y, x) ensures x == y {
      if x != y { TextLessTransitive(x, y, x); TextLessIrreflexive(x); }
    }
    forall x, y, z | TextLeq(x, y) && TextLeq(y, z) ensures TextLeq(x, z) {
      if x != y && y != z { TextLessTransitive(x, y, z); }
    }
  }

  lemma AddressTotal(x: Address, y: Address)
    ensures AddressLeq(x, y) || AddressLeq(y, x)
    ensures AddressLeq(x, y) && AddressLeq(y, x) ==> x == y
  {
    TextLessTotal(x.host, y.host);
    TextLessTotal(x.kind.Token(), y.kind.Token());
    TokenInjective(x.kind, y.kind);
    TextTotalOrder();
    assert TextLeq(x.host, y.host) && TextLeq(y.host, x.host) ==> x.host == y.host;
    TextLessIrreflexive(x.host);
    TextLessIrreflexive(x.kind.Token());
    assert TextLeq(x.kind.Token(), y.kind.Token()) && TextLeq(y.kind.Token(), x.kind.Token())
           ==> x.kind.Token() == y.kind.Token();
  }

  lemma AddressTransitive(x: Address, y: Address, z: Address)
    requires AddressLess(x, y) && AddressLess(y, z)
    ensures AddressLess(x, z)
  {
    if TextLess(x.host, y.host) && TextLess(y.host, z.host) { TextLessTransitive(x.host, y.host, z.host); }
    if TextLess(x.kind.Token(), y.kind.Token()) && TextLess(y.kind.Token(), z.kind.Token()) {
      TextLessTransitive(x.kind.Token(), y.kind.Token(), z.kind.Token());
    }
  }

  lemma AddressTotalOrder()
    ensures Sorting.TotalOrder(AddressLeq)
  {
    forall x, y
      ensures AddressLeq(x, y) || AddressLeq(y, x)
      ensures AddressLeq(x, y) && AddressLeq(y, x) ==> x == y
    {
      AddressTotal(x, y);
    }
    forall x, y, z | AddressLeq(x, y) && AddressLeq(y, z) ensures AddressLeq(x, z) {
      if x != y && y != z { AddressTransitive(x, y, z); }
    }
  }

  /** One typed write into the hasher. */
  datatype Field = Usize(n: nat) | U16(v: u16) | Str(s: Text) | U8(b: byte)

  type Hasher = seq<Field> -> u64

  function AddressFields(addrs: seq<Address>): (r: seq<Field>)
    ensures |r| == 3 * |addrs|
  {
    if addrs == [] then []
    else
      var a := addrs[|addrs| - 1];
      AddressFields(addrs[..|addrs| - 1]) + [Str(a.host), U16(a.port), Str(a.kind.Token())]
  }

  function TextFields(texts: seq<Text>): (r: seq<Field>)
    ensures |r| == |texts|
  {
    seq(|texts|, i requires 0 <= i < |texts| => Str(texts[i]))
  }

  function PaymentFields(payment: Option<PaymentClaim>): seq<Field> {
    match payment
    case Some(p) => [Usize(3)] + TextFields(p.WireParts())
    case None => [U8(0)]
  }

  function FlagsAndPayment(fs: seq<Text>, p: Option<PaymentClaim>): seq<Field> {
    [Usize(|fs|)] + (TextFields(fs) + PaymentFields(p))
  }

  function FingerprintStream(e: PeerEntry): seq<Field> {
    var addrs := Sorting.Sort(AddressLeq, e.addresses);
    var flags := Sorting.Sort(TextLeq, e.flags);
    [Usize(|addrs|)] + (AddressFields(addrs) + FlagsAndPayment(flags, e.payment))
  }

  function Fingerprint(hasher: Hasher, e: PeerEntry): u64 { hasher(FingerprintStream(e)) }

  lemma Regroup<T>(a: seq<T>, b: seq<T>, c: seq<T>, d: seq<T>, e: seq<T>)
    ensures a + b + c + d + e == a + (b + (c + (d + e)))
  {
  }

  method FingerprintHash(hasher: Hasher, e: PeerEntry) returns (hash: u64)
    ensures hash == Fingerprint(hasher, e)
  {
    hide Sorting.Sort;
    var addrs := Sorting.Sort(AddressLeq, e.addresses);
    var flags := Sorting.Sort(TextLeq, e.flags);
    var fed := [Usize(|addrs|)];
    for i := 0 to |addrs|
      invariant fed == [Usize(|addrs|)] + AddressFields(addrs[..i])
    {
      assert addrs[..i + 1][..i] == addrs[..i];
      fed := fed + [Str(addrs[i].host)];
      fed := fed + [U16(addrs[i].port)];
      fed := fed + [Str(addrs[i].kind.Token())];
    }
    assert addrs[..|addrs|] == addrs;
    fed := fed + [Usize(|flags|)];
    ghost var before := fed;
    for i := 0 to |flags|
      invariant fed == before + TextFields(flags[..i])
    {
      fed := fed + [Str(flags[i])];
    }
    assert flags[..|flags|] == flags;
    ghost var beforePayment := fed;
    match e.payment {
      case Some(p) => fed := fed + ([Usize(3)] + TextFields(p.WireParts()));
      case None => fed := fed + [U8(0)];
    }
    assert fed == beforePayment + PaymentFields(e.payment);
    Regroup([Usize(|addrs|)], AddressFields(addrs), [Usize(|flags|)], TextFields(flags), PaymentFields(e.payment));
    hash := hasher(fed);
  }

  lemma {:induction false} AddressFieldsInjective(xs: seq<Address>, ys: seq<Address>)
    requires AddressFields(xs) == AddressFields(ys)
    ensures xs == ys
  {
    assert |xs| == |ys|;
    if xs != [] {
      var n := |xs| - 1;
      var fx, fy := AddressFields(xs[..n]), AddressFields(ys[..n]);
      assert fx == AddressFields(xs)[..3 * n] && fy == AddressFields(ys)[..3 * n];
      assert AddressFields(xs)[3 * n..] == [Str(xs[n].host), U16(xs[n].port), Str(xs[n].kind.Token())];
      assert AddressFields(ys)[3 * n..] == [Str(ys[n].host), U16(ys[n].port), Str(ys[n].kind.Token())];
      AddressFieldsInjective(xs[..n], ys[..n]);
      TokenInjective(xs[n].kind, ys[n].kind);
      assert xs == xs[..n] + [xs[n]] && ys == ys[..n] + [ys[n]];
    }
  }

  lemma TextFieldsInjective(xs: seq<Text>, ys: seq<Text>)
    requires TextFields(xs) == TextFields(ys)
    ensures xs == ys
  {
    assert |xs| == |ys|;
    forall i | 0 <= i < |xs| ensures xs[i] == ys[i] {
      assert TextFields(xs)[i] == Str(xs[i]) && TextFields(ys)[i] == Str(ys[i]);
    }
  }

  lemma PaymentFieldsInjective(p: Option<PaymentClaim>, q: Option<PaymentClaim>)
    requires PaymentFields(p) == PaymentFields(q)
    ensures p == q
  {
    assert PaymentFields(p)[0] == PaymentFields(q)[0];
    if p.Some? {
      assert PaymentFields(p)[1..] == TextFields(p.value.WireParts());
      assert PaymentFields(q)[1..] == TextFields(q.value.WireParts());
      TextFieldsInjective(p.value.WireParts(), q.value.WireParts());
      assert p.value.WireParts()[0] == q.value.WireParts()[0] && p.value.WireParts()[1] == q.value.WireParts()[1]
             && p.value.WireParts()[2] == q.value.WireParts()[2];
    }
  }

  /** What two entries must share to be the same advertisement. */
  ghost predicate SameContent(d: PeerEntry, e: PeerEntry) {
    multiset(d.addresses) == multiset(e.addresses) && multiset(d.flags) == multiset(e.flags) && d.payment == e.payment
  }

  lemma SplitEqual<T>(a: seq<T>, b: seq<T>, c: seq<T>, d: seq<T>)
    requires a + b == c + d && |a| == |c|
    ensures a == c && b == d
  {
    assert a == (a + b)[..|a|] && c == (c + d)[..|c|];
    assert b == (a + b)[|a|..] && d == (c + d)[|c|..];
  }

  lemma FlagsAndPaymentInjective(fs: seq<Text>, gs: seq<Text>, p: Option<PaymentClaim>, q: Option<PaymentClaim>)
    requires FlagsAndPayment(fs, p) == FlagsAndPayment(gs, q)
    ensures fs == gs && p == q
  {
    SplitEqual([Usize(|fs|)], TextFields(fs) + PaymentFields(p), [Usize(|gs|)], TextFields(gs) + PaymentFields(q));
    assert [Usize(|fs|)][0] == [Usize(|gs|)][0];
    SplitEqual(TextFields(fs), PaymentFields(p), TextFields(gs), PaymentFields(q));
    TextFieldsInjective(fs, gs);
    PaymentFieldsInjective(p, q);
  }

  lemma StreamParts(xs: seq<Address>, ys: seq<Address>, fs: seq<Text>, gs: seq<Text>,
                    p: Option<PaymentClaim>, q: Option<PaymentClaim>)
    requires [Usize(|xs|)] + (AddressFields(xs) + FlagsAndPayment(fs, p))
          == [Usize(|ys|)] + (AddressFields(ys) + FlagsAndPayment(gs, q))
    ensures xs == ys && fs == gs && p == q
  {
    SplitEqual([Usize(|xs|)], AddressFields(xs) + FlagsAndPayment(fs, p),
               [Usize(|ys|)], AddressFields(ys) + FlagsAndPayment(gs, q));
    assert [Usize(|xs|)][0] == [Usize(|ys|)][0];
    SplitEqual(AddressFields(xs), FlagsAndPayment(fs, p), AddressFields(ys), FlagsAndPayment(gs, q));
    AddressFieldsInjective(xs, ys);
    FlagsAndPaymentInjective(fs, gs, p, q);
  }

  /** The hasher is fed the same writes exactly when the content is the same up to list order;
      `last_seen`, `via`, `network_id` and `peer_id` have no part in it. */
  lemma FingerprintCanonical(d: PeerEntry, e: PeerEntry)
    ensures FingerprintStream(d) == FingerprintStream(e) <==> SameContent(d, e)
  {
    AddressTotalOrder();
    TextTotalOrder();
    Sorting.SortCanonical(AddressLeq, d.addresses, e.addresses);
    Sorting.SortCanonical(TextLeq, d.flags, e.flags);
    if FingerprintStream(d) == FingerprintStream(e) {
      StreamParts(Sorting.Sort(AddressLeq, d.addresses), Sorting.Sort(AddressLeq, e.addresses),
                  Sorting.Sort(TextLeq, d.flags), Sorting.Sort(TextLeq, e.flags), d.payment, e.payment);
    }
  }
}
