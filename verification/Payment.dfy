/** The signed payment address: the canonical bytes a peer signs, and the claim that carries them.
    SHA-256, base64 and the signature primitive are arbitrary functions supplied by the caller. */
module Payment {
  import opened Basics
  import opened Caps

  const PAYMENT_SIG_CONTEXT: seq<byte> := Ascii("dig-pex/payment-address/v1") + [0]

  datatype PaymentClaim = PaymentClaim(address: Text, spki: Text, sig: Text) {
    function WireParts(): seq<Text> { [address, spki, sig] }

    predicate WithinCaps() {
      && |address| <= PEX_MAX_PAYMENT_ADDRESS_LEN
      && |spki| <= PEX_MAX_PAYMENT_SPKI_LEN
      && |sig| <= PEX_MAX_PAYMENT_SIG_LEN
    }
  }

  datatype PaymentClaimError = NotPresent | Malformed | PeerIdMismatch | BadSignature

  datatype PaymentResult = Ok(address: Text) | Err(error: PaymentClaimError)

  type Digest = d: seq<byte> | |d| == 32 witness seq(32, _ => 0 as byte)

  /** What the embedder and the crypto libraries provide. */
  datatype Crypto = Crypto(
    sha256: seq<byte> -> Digest,
    decodeBase64: Text -> Option<seq<byte>>,
    verifySignature: (seq<byte>, seq<byte>, seq<byte>) -> bool)

  // ----- canonical bytes -----

  /** Four-byte big-endian form. */
  function BeU32(n: u32): (r: seq<byte>)
    ensures |r| == 4
    ensures r[0] as int * 0x100_0000 + r[1] as int * 0x1_0000 + r[2] as int * 0x100 + r[3] as int == n
  {
    var high := n / 0x100;
    var higher := high / 0x100;
    [(higher / 0x100) as byte, (higher % 0x100) as byte, (high % 0x100) as byte, (n % 0x100) as byte]
  }

  function LengthPrefixed(field: Text): seq<byte> {
    BeU32(Min(|field|, U32_MAX)) + field
  }

  function Fields(fields: seq<Text>): seq<byte> {
    if fields == [] then [] else Fields(fields[..|fields| - 1]) + LengthPrefixed(fields[|fields| - 1])
  }

  function SigningBytes(peerId: Text, networkId: Text, address: Text): seq<byte> {
    PAYMENT_SIG_CONTEXT + Fields([peerId, networkId, address])
  }

  lemma ThreeFields(p: Text, n: Text, a: Text)
    ensures Fields([p, n, a]) == LengthPrefixed(p) + (LengthPrefixed(n) + LengthPrefixed(a))
  {
    assert [p, n, a][..2] == [p, n] && [p, n][..1] == [p] && [p][..0] == [];
    assert Fields([p]) == LengthPrefixed(p);
    assert Fields([p, n]) == LengthPrefixed(p) + LengthPrefixed(n);
  }

  /** The bytes signed: the context string and its terminator, then identity, network and address in that
      order, each behind its length in four bytes, most significant first. */
  ghost predicate LaidOut(msg: seq<byte>, peerId: Text, networkId: Text, address: Text) {
    msg == Ascii("dig-pex/payment-address/v1") + [0]
           + (BeU32(Min(|peerId|, U32_MAX)) + peerId
              + (BeU32(Min(|networkId|, U32_MAX)) + networkId + (BeU32(Min(|address|, U32_MAX)) + address)))
  }

  lemma SigningBytesLaidOut(peerId: Text, networkId: Text, address: Text)
    ensures LaidOut(SigningBytes(peerId, networkId, address), peerId, networkId, address)
  {
    hide BeU32, Fields;
    ThreeFields(peerId, networkId, address);
  }

  lemma OneMoreField(fields: seq<Text>, i: nat)
    requires i < |fields|
    ensures Fields(fields[..i + 1]) == Fields(fields[..i]) + LengthPrefixed(fields[i])
  {
    assert fields[..i + 1][..i] == fields[..i];
  }

  lemma Appended(msg: seq<byte>, before: seq<byte>, prefix: seq<byte>, field: seq<byte>)
    requires msg == PAYMENT_SIG_CONTEXT + before
    ensures msg + prefix + field == PAYMENT_SIG_CONTEXT + (before + (prefix + field))
  {
  }

  method PaymentSigningBytes(peerId: Text, networkId: Text, address: Text) returns (msg: seq<byte>)
    ensures msg == SigningBytes(peerId, networkId, address)
    ensures LaidOut(msg, peerId, networkId, address)
  {
    hide Fields, BeU32;
    var fields := [peerId, networkId, address];
    msg := PAYMENT_SIG_CONTEXT;
    NoFields();
    for i := 0 to |fields|
      invariant msg == PAYMENT_SIG_CONTEXT + Fields(fields[..i])
    {
      var len := if |fields[i]| <= U32_MAX then |fields[i]| else U32_MAX;
      OneMoreField(fields, i);
      Appended(msg, Fields(fields[..i]), BeU32(len), fields[i]);
      msg := msg + BeU32(len);
      msg := msg + fields[i];
    }
    assert fields[..|fields|] == fields;
    SigningBytesLaidOut(peerId, networkId, address);
  }

  lemma NoFields()
    ensures Fields([]) == []
  {
  }

  /** A length-prefixed field can be split off the front of a message in one way only. */
  lemma PrefixedFieldSplits(x: Text, xs: seq<byte>, y: Text, ys: seq<byte>)
    requires |x| <= U32_MAX && |y| <= U32_MAX
    requires LengthPrefixed(x) + xs == LengthPrefixed(y) + ys
    ensures x == y && xs == ys
  {
    var s, t := LengthPrefixed(x) + xs, LengthPrefixed(y) + ys;
    assert BeU32(|x|) == s[..4] && BeU32(|y|) == t[..4];
    assert |x| == |y|;
    assert x == s[4..4 + |x|] && y == t[4..4 + |y|];
    assert xs == s[4 + |x|..] && ys == t[4 + |y|..];
  }

  /** No two different field triples sign the same bytes. */
  lemma SigningBytesInjective(p1: Text, n1: Text, a1: Text, p2: Text, n2: Text, a2: Text)
    requires |p1| <= U32_MAX && |n1| <= U32_MAX && |a1| <= U32_MAX
    requires |p2| <= U32_MAX && |n2| <= U32_MAX && |a2| <= U32_MAX
    ensures SigningBytes(p1, n1, a1) == SigningBytes(p2, n2, a2) <==> p1 == p2 && n1 == n2 && a1 == a2
  {
    if SigningBytes(p1, n1, a1) == SigningBytes(p2, n2, a2) {
      var c := |PAYMENT_SIG_CONTEXT|;
      var r1 := LengthPrefixed(n1) + LengthPrefixed(a1);
      var r2 := LengthPrefixed(n2) + LengthPrefixed(a2);
      ThreeFields(p1, n1, a1);
      ThreeFields(p2, n2, a2);
      assert SigningBytes(p1, n1, a1)[c..] == LengthPrefixed(p1) + r1;
      assert SigningBytes(p2, n2, a2)[c..] == LengthPrefixed(p2) + r2;
      PrefixedFieldSplits(p1, r1, p2, r2);
      PrefixedFieldSplits(n1, LengthPrefixed(a1), n2, LengthPrefixed(a2));
      assert LengthPrefixed(a1) + [] == LengthPrefixed(a1) && LengthPrefixed(a2) + [] == LengthPrefixed(a2);
      PrefixedFieldSplits(a1, [], a2, []);
    }
  }

  // ----- peer identity -----

  function HexDigit(n: int): (d: byte)
    requires 0 <= n < 16
  {
    if n < 10 then (48 + n) as byte else (87 + n) as byte
  }

  function Hex(bytes: seq<byte>): (t: Text)
    ensures |t| == 2 * |bytes|
  {
    if bytes == [] then []
    else
      var last := bytes[|bytes| - 1] as int;
      Hex(bytes[..|bytes| - 1]) + [HexDigit(last / 16), HexDigit(last % 16)]
  }

  predicate IsHexByte(b: byte) { 48 <= b <= 57 || 97 <= b <= 102 }

  /** What a digit stands for: '0' to '9', then 'a' to 'f'. */
  function DigitValue(b: byte): int
    requires IsHexByte(b)
  {
    if b <= 57 then b as int - 48 else b as int - 97 + 10
  }

  /** The text spells the bytes out in lowercase hexadecimal, the high digit of each byte first. */
  ghost predicate Spells(t: Text, bytes: seq<byte>) {
    && |t| == 2 * |bytes| && (forall i | 0 <= i < |t| :: IsHexByte(t[i]))
    && forall i | 0 <= i < |bytes| :: SpellsByte(t, bytes, i)
  }

  predicate SpellsByte(t: Text, bytes: seq<byte>, i: nat)
    requires i < |bytes| && |t| == 2 * |bytes| && forall j | 0 <= j < |t| :: IsHexByte(t[j])
  {
    DigitValue(t[2 * i]) * 16 + DigitValue(t[2 * i + 1]) == bytes[i] as int
  }

  lemma DigitSpells(n: int)
    requires 0 <= n < 16
    ensures IsHexByte(HexDigit(n)) && DigitValue(HexDigit(n)) == n
  {
  }

  /** The hex form spells the bytes out. */
  lemma {:induction false} HexSpells(bytes: seq<byte>)
    ensures Spells(Hex(bytes), bytes)
  {
    if bytes != [] {
      var n := |bytes| - 1;
      var init, last, t := bytes[..n], bytes[n] as int, Hex(bytes);
      HexSpells(init);
      DigitSpells(last / 16);
      DigitSpells(last % 16);
      assert t == Hex(init) + [HexDigit(last / 16), HexDigit(last % 16)];
      forall i | 0 <= i < |t| ensures IsHexByte(t[i]) { assert i < 2 * n ==> t[i] == Hex(init)[i]; }
      forall i | 0 <= i < |bytes| ensures SpellsByte(t, bytes, i) {
        if i < n {
          assert SpellsByte(Hex(init), init, i);
          assert t[2 * i] == Hex(init)[2 * i] && t[2 * i + 1] == Hex(init)[2 * i + 1];
        }
      }
    }
  }

  /** Nothing else does. */
  lemma SpelledOnce(t: Text, u: Text, bytes: seq<byte>)
    requires Spells(t, bytes) && Spells(u, bytes)
    ensures t == u
  {
    forall i | 0 <= i < |bytes| ensures t[2 * i] == u[2 * i] && t[2 * i + 1] == u[2 * i + 1] {
      assert SpellsByte(t, bytes, i) && SpellsByte(u, bytes, i);
      DigitsDiffer(t[2 * i], u[2 * i]);
      DigitsDiffer(t[2 * i + 1], u[2 * i + 1]);
    }
    forall j | 0 <= j < |t| ensures t[j] == u[j] { assert j == 2 * (j / 2) || j == 2 * (j / 2) + 1; }
  }

  lemma DigitsDiffer(a: byte, b: byte)
    requires IsHexByte(a) && IsHexByte(b)
    ensures 0 <= DigitValue(a) < 16 && 0 <= DigitValue(b) < 16
    ensures DigitValue(a) == DigitValue(b) ==> a == b
  {
  }

  lemma SpellsIsHex(t: Text, bytes: seq<byte>)
    ensures Spells(t, bytes) <==> t == Hex(bytes)
  {
    HexSpells(bytes);
    if Spells(t, bytes) { SpelledOnce(t, Hex(bytes), bytes); }
  }

  function PeerIdForSpki(crypto: Crypto, spki: seq<byte>): Text { Hex(crypto.sha256(spki)) }

  method PeerIdForSpkiLoop(crypto: Crypto, spki: seq<byte>) returns (hex: Text)
    ensures hex == PeerIdForSpki(crypto, spki)
    ensures |hex| == 64 && Spells(hex, crypto.sha256(spki))
  {
    var digest: seq<byte> := crypto.sha256(spki);
    hex := [];
    for i := 0 to |digest|
      invariant hex == Hex(digest[..i])
    {
      assert digest[..i + 1][..i] == digest[..i];
      hex := hex + [HexDigit(digest[i] as int / 16), HexDigit(digest[i] as int % 16)];
    }
    assert digest[..|digest|] == digest;
    HexSpells(digest);
  }

  predicate IsHex64(s: Text) { |s| == 64 && forall i :: 0 <= i < |s| ==> IsHexByte(s[i]) }

  lemma {:induction false} HexLowercase(bytes: seq<byte>)
    ensures forall i :: 0 <= i < |Hex(bytes)| ==> IsHexByte(Hex(bytes)[i])
  {
    if bytes != [] { HexLowercase(bytes[..|bytes| - 1]); }
  }

  lemma {:induction false} HexInjective(a: seq<byte>, b: seq<byte>)
    requires Hex(a) == Hex(b)
    ensures a == b
  {
    if a == [] || b == [] {
      assert |Hex(a)| == 2 * |a| && |Hex(b)| == 2 * |b|;
    } else {
      var n, m := |a| - 1, |b| - 1;
      assert Hex(a)[..2 * n] == Hex(a[..n]) && Hex(b)[..2 * m] == Hex(b[..m]);
      HexInjective(a[..n], b[..m]);
      assert Hex(a)[2 * n] == HexDigit(a[n] as int / 16) && Hex(b)[2 * m] == HexDigit(b[m] as int / 16);
      assert Hex(a)[2 * n + 1] == HexDigit(a[n] as int % 16) && Hex(b)[2 * m + 1] == HexDigit(b[m] as int % 16);
      assert a[n] == b[m];
      assert a == a[..n] + [a[n]] && b == b[..m] + [b[m]];
    }
  }

  /** An identity derived from a key is always a well-formed `peer_id`, and two keys share one exactly
      when their digests collide. */
  lemma PeerIdBindsKey(crypto: Crypto, k1: seq<byte>, k2: seq<byte>)
    ensures IsHex64(PeerIdForSpki(crypto, k1))
    ensures PeerIdForSpki(crypto, k1) == PeerIdForSpki(crypto, k2) <==> crypto.sha256(k1) == crypto.sha256(k2)
  {
    HexLowercase(crypto.sha256(k1));
    if PeerIdForSpki(crypto, k1) == PeerIdForSpki(crypto, k2) {
      HexInjective(crypto.sha256(k1), crypto.sha256(k2));
    }
  }

  // ----- verification -----

  function Verify(claim: PaymentClaim, peerId: Text, networkId: Text, crypto: Crypto): PaymentResult {
    if !claim.WithinCaps() then Err(Malformed)
    else
      var spki, sig := crypto.decodeBase64(claim.spki), crypto.decodeBase64(claim.sig);
      if spki.None? || sig.None? then Err(Malformed)
      else if PeerIdForSpki(crypto, spki.value) != peerId then Err(PeerIdMismatch)
      else if !crypto.verifySignature(spki.value, SigningBytes(peerId, networkId, claim.address), sig.value)
      then Err(BadSignature)
      else Ok(claim.address)
  }

  /** What is checked, and in which order. A claim verifies, to its own address, if and only if its fields
      are within their caps and decode, the identity spells out the digest of the key, and the verifier
      takes the signature over the bytes; otherwise the first of these to fail is the error. */
  lemma VerifiesIff(claim: PaymentClaim, peerId: Text, networkId: Text, crypto: Crypto)
    ensures var spki, sig := crypto.decodeBase64(claim.spki), crypto.decodeBase64(claim.sig);
            var formed := |claim.address| <= 128 && |claim.spki| <= 512 && |claim.sig| <= 256
                          && spki.Some? && sig.Some?;
            var bound := formed && Spells(peerId, crypto.sha256(spki.value));
            var signed := formed && crypto.verifySignature(spki.value, SigningBytes(peerId, networkId, claim.address),
                                                           sig.value);
            && (Verify(claim, peerId, networkId, crypto) == Err(Malformed) <==> !formed)
            && (Verify(claim, peerId, networkId, crypto) == Err(PeerIdMismatch) <==> formed && !bound)
            && (Verify(claim, peerId, networkId, crypto) == Err(BadSignature) <==> bound && !signed)
            && (Verify(claim, peerId, networkId, crypto) == Ok(claim.address) <==> bound && signed)
  {
    hide Spells, Hex, SigningBytes;
    var spki := crypto.decodeBase64(claim.spki);
    if spki.Some? { SpellsIsHex(peerId, crypto.sha256(spki.value)); }
  }

  /** The key whose digest is `peerId` signed exactly `bytes`, in the eyes of the verifier. */
  ghost predicate Attested(crypto: Crypto, peerId: Text, bytes: seq<byte>) {
    exists spki, sig ::
      PeerIdForSpki(crypto, spki) == peerId && crypto.verifySignature(spki, bytes, sig)
  }

  /** What a payee means: the address came from this claim, a key that hashes to `peerId` attested
      the bytes, and those bytes name this peer, this network and this address and nothing else.
      A permissive verifier cannot name a payee for a key that is not the peer's. */
  lemma VerifiedAddressIsTheOnlyOne(claim: PaymentClaim, peerId: Text, networkId: Text, crypto: Crypto)
    requires Verify(claim, peerId, networkId, crypto).Ok?
    requires |networkId| <= U32_MAX
    ensures var payee := Verify(claim, peerId, networkId, crypto).address;
            && payee == claim.address
            && Attested(crypto, peerId, SigningBytes(peerId, networkId, payee))
            && IsHex64(peerId)
            && forall p, n, a | |p| <= U32_MAX && |n| <= U32_MAX && |a| <= U32_MAX
                 && SigningBytes(p, n, a) == SigningBytes(peerId, networkId, payee) ::
                 p == peerId && n == networkId && a == payee
  {
    var spki := crypto.decodeBase64(claim.spki).value;
    var sig := crypto.decodeBase64(claim.sig).value;
    assert crypto.verifySignature(spki, SigningBytes(peerId, networkId, claim.address), sig);
    PeerIdBindsKey(crypto, spki, spki);
    forall p, n, a | |p| <= U32_MAX && |n| <= U32_MAX && |a| <= U32_MAX
      && SigningBytes(p, n, a) == SigningBytes(peerId, networkId, claim.address)
      ensures p == peerId && n == networkId && a == claim.address
    {
      SigningBytesInjective(p, n, a, peerId, networkId, claim.address);
    }
  }

  /** An address kept while anything the signature covers is rewritten underneath it never verifies: once
      the verifier accepts from this key only what it really signed, however many pairs of network and
      address that is, a claim verifies only for a pair among them. */
  lemma TamperedClaimIsRefused(claim: PaymentClaim, peerId: Text, networkId: Text, crypto: Crypto,
                               signed: iset<(Text, Text)>)
    requires |networkId| <= U32_MAX && forall pair | pair in signed :: |pair.0| <= U32_MAX && |pair.1| <= U32_MAX
    requires forall spki, bytes, sig | PeerIdForSpki(crypto, spki) == peerId
               && crypto.verifySignature(spki, bytes, sig) ::
               exists pair :: pair in signed && bytes == SigningBytes(peerId, pair.0, pair.1)
    ensures Verify(claim, peerId, networkId, crypto).Ok? ==> (networkId, claim.address) in signed
  {
    if Verify(claim, peerId, networkId, crypto).Ok? {
      var spki := crypto.decodeBase64(claim.spki).value;
      PeerIdBindsKey(crypto, spki, spki);
      var pair :| pair in signed
        && SigningBytes(peerId, networkId, claim.address) == SigningBytes(peerId, pair.0, pair.1);
      SigningBytesInjective(peerId, networkId, claim.address, peerId, pair.0, pair.1);
    }
  }
}
