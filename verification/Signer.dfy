/** Signature envelopes: key derivation, key compression, the signer object and the check that
    needs nothing but the envelope. */
module Signer {
  import opened Outcomes
  import opened NumberTheory
  import opened Curve
  import opened Scalars
  import opened Bytes
  import opened Json
  import opened Ecdsa

  // ----- key compression (SEC 1 version 2, sections 2.3.3 and 2.3.4) -----

  /** `public_key_hex` of a point other than infinity. */
  function CompressKey(a: Point): (t: string)
    requires a.Affine? && 0 <= a.x
    ensures |t| == 66 && AllHex(t)
  {
    HexOfBytes([if a.y % 2 == 0 then 2 else 3] + ToBigEndian(a.x, 32))
  }

  function Take(t: string, n: nat): string {
    if |t| <= n then t else t[..n]
  }

  function Drop(t: string, n: nat): string {
    if |t| <= n then [] else t[n..]
  }

  /** The point `verify_static` rebuilds from the text of a key; None where it answers False. The
      abscissa is used as read, reduced or not. */
  function DecodeKey(d: Domain, key: string): Option<Point>
    requires 2 <= d.p
  {
    var prefix, abscissa := IntBase16(Take(key, 2)), IntBase16(Drop(key, 2));
    if prefix.None? || abscissa.None? then None
    else
      var x := abscissa.value;
      var ySquared := (PowMod(x, 3, d.p) + B) % d.p;
      var y := SqrtMod(ySquared, d.p);
      if (y * y) % d.p != ySquared then None
      else Some(Affine(x, if y % 2 != prefix.value - 2 then d.p - y else y))
  }

  lemma CubeIsRhs(p: int, x: int)
    requires 2 <= p
    ensures (PowMod(x, 3, p) + B) % p == Rhs(x) % p
  {
    assert Pow(x, 1) == x && Pow(x, 2) == x * x;
    assert Pow(x, 3) == x * (x * x);
    MulAssoc(x, x, x);
    CongMod(p, Pow(x, 3));
    CongIff(p, PowMod(x, 3, p) + B, Pow(x, 3) + B);
  }

  /** A key is accepted exactly when its abscissa belongs to a point of the curve. */
  lemma DecodeKeyAccepts(d: Domain, key: string)
    requires IsPrime(d.p) && d.p % 4 == 3
    requires IntBase16(Take(key, 2)).Some? && IntBase16(Drop(key, 2)).Some?
    ensures var x := IntBase16(Drop(key, 2)).value;
            DecodeKey(d, key).Some? <==> exists y :: Cong(d.p, y * y, Rhs(x))
  {
    var x := IntBase16(Drop(key, 2)).value;
    var c := (PowMod(x, 3, d.p) + B) % d.p;
    var t := SqrtMod(c, d.p);
    CubeIsRhs(d.p, x);
    if DecodeKey(d, key).Some? {
      ModUnique(d.p, c, 0, c);
      CongIff(d.p, t * t, Rhs(x));
    }
    if y :| Cong(d.p, y * y, Rhs(x)) {
      CongIff(d.p, y * y, Rhs(x));
      SqrtSquares(d.p, y);
      CongIff(d.p, t * t, y * y);
    }
  }

  lemma CompressedParts(a: Point)
    requires a.Affine? && 0 <= a.x < TWO_256
    ensures IntBase16(Take(CompressKey(a), 2)) == Some(if a.y % 2 == 0 then 2 else 3)
    ensures IntBase16(Drop(CompressKey(a), 2)) == Some(a.x)
  {
    var first: seq<byte>, x := [if a.y % 2 == 0 then 2 else 3], ToBigEndian(a.x, 32);
    HexOfBytesConcat(first, x);
    var t := CompressKey(a);
    assert t[..2] == HexOfBytes(first) && t[2..] == HexOfBytes(x);
    HexOfBytesNumber(first);
    HexOfBytesNumber(x);
    assert FromBigEndian(first) == first[0] by { assert first[..0] == []; }
    Pow256(32);
    BigEndianRoundTrip(a.x, 32);
    IntBase16OfHex(HexOfBytes(first));
    IntBase16OfHex(HexOfBytes(x));
  }

  /** The parity of the other root differs, because p is odd. */
  lemma RootByParity(p: int, y: int, t: int)
    requires p % 4 == 3 && 0 <= y < p && 0 <= t < p && (t == y || t + y == p)
    ensures (if t % 2 != (if y % 2 == 0 then 2 else 3) - 2 then p - t else t) == y
  {
  }

  /** Every reduced point of the curve comes back from its compressed text. */
  lemma KeyRoundTrip(d: Domain, a: Point)
    requires IsPrime(d.p) && d.p % 4 == 3 && d.p < TWO_256
    requires a.Affine? && OnCurve(d.p, a)
    ensures DecodeKey(d, CompressKey(a)) == Some(a)
  {
    CompressedParts(a);
    CubeIsRhs(d.p, a.x);
    var c := Rhs(a.x) % d.p;
    var t := SqrtMod(c, d.p);
    CongIff(d.p, a.y * a.y, Rhs(a.x));
    SqrtSquares(d.p, a.y);
    CongIff(d.p, t * t, a.y * a.y);
    SameSquare(d.p, t, a.y);
    RootByParity(d.p, a.y, t);
  }

  // ----- messages and envelopes -----

  /** The canonical form of a manifest and its hash. */
  function MessageHash(e: Primitives, manifest: Json): seq<byte> {
    e.sha256(Utf8(Print(manifest)))
  }

  function Envelope(sig: Signature, key: string, signedAt: string, count: int): Dict
    requires 0 <= sig.r && 0 <= sig.s
  {
    Obj(map[
      "r" := Str(FormatHex(sig.r, 64)),
      "s" := Str(FormatHex(sig.s, 64)),
      "pubkey" := Str(key),
      "algorithm" := Str("ecdsa-secp256k1-sha256"),
      "signed_at" := Str(signedAt),
      "sign_count" := Num(count)])
  }

  /** `EphemeralSigner.verify_static`: False for anything missing, malformed or raising. */
  function VerifyStatic(e: Primitives, manifest: Json, signature: Json): bool
    requires 2 <= e.d.p && 2 <= e.d.n
  {
    match (signature.Get("r"), signature.Get("s"), signature.Get("pubkey"))
    case (Some(Str(rText)), Some(Str(sText)), Some(Str(key))) =>
      var r, s := IntBase16(rText), IntBase16(sText);
      if r.None? || s.None? then false
      else
        var pub := DecodeKey(e.d, key);
        pub.Some? && EcdsaVerify(e.d, pub.value, MessageHash(e, manifest), r.value, s.value) == Ok(true)
    case _ => false
  }

  // ----- key derivation -----

  /** A bytes literal. */
  function BytesOf(t: string): seq<byte> {
    seq(|t|, i requires 0 <= i < |t| => t[i] as int % 256)
  }

  /** The private key: an HMAC of the seed reduced modulo the order, with a second label and then
      the constant 1 when that is zero. */
  function DeriveKey(e: Primitives, seed: nat): (x: nat)
    requires 2 <= e.d.n
    ensures 1 <= x < e.d.n
  {
    var octets := ToBigEndian(seed, 32);
    var x := FromBigEndian(e.hmac(BytesOf("aether-ephemeral-secp256k1"), octets)) % e.d.n;
    if x != 0 then x
    else
      var y := FromBigEndian(e.hmac(BytesOf("aether-ephemeral-secp256k1-zero-key-retry"), octets)) % e.d.n;
      if y == 0 then 1 else y
  }

  /** The public key of a seed. */
  function PublicKey(e: Primitives, seed: nat): Point
    requires 2 <= e.d.p && 2 <= e.d.n
  {
    Times(e.d.p, DeriveKey(e, seed), e.d.G())
  }

  lemma PublicKeyIsPoint(e: Primitives, seed: nat)
    requires e.d.Sound()
    ensures PublicKey(e, seed).Affine? && OnCurve(e.d.p, PublicKey(e, seed))
    ensures LadderMul(e.d.p, DeriveKey(e, seed), e.d.G(), 256) == Ok(PublicKey(e, seed))
  {
    var x := DeriveKey(e, seed);
    ModUnique(e.d.n, x, 0, x);
    TimesOnCurve(e.d.p, x, e.d.G());
    OrderExact(e.d.p, e.d.n, x, e.d.G());
    PointMulIsTimes(e.d.p, x, e.d.G());
  }

  // ----- signing -----

  /** What signing a manifest with the key of a seed returns. */
  ghost function SignedEnvelope(e: Primitives, seed: nat, manifest: Json, signedAt: string, count: int): Result<Dict>
    requires e.d.Sound() && Stops(e, DeriveKey(e, seed), MessageHash(e, manifest))
  {
    PublicKeyIsPoint(e, seed);
    var sig :- Ecdsa.Sign(e, DeriveKey(e, seed), MessageHash(e, manifest));
    SignedInRange(e, seed, manifest);
    Ok(Envelope(sig, CompressKey(PublicKey(e, seed)), signedAt, count))
  }

  lemma SignedInRange(e: Primitives, seed: nat, manifest: Json)
    requires e.d.Sound() && Stops(e, DeriveKey(e, seed), MessageHash(e, manifest))
    requires Ecdsa.Sign(e, DeriveKey(e, seed), MessageHash(e, manifest)).Ok?
    ensures var sig := Ecdsa.Sign(e, DeriveKey(e, seed), MessageHash(e, manifest)).value;
            && 1 <= sig.r < e.d.n && 1 <= sig.s <= e.d.n / 2
            && EcdsaVerify(e.d, PublicKey(e, seed), MessageHash(e, manifest), sig.r, sig.s) == Ok(true)
  {
    var h := MessageHash(e, manifest);
    SignatureVerifies(e.d, DeriveKey(e, seed), h, Nonce(e, DeriveKey(e, seed), h));
  }

  /** Every envelope that signing returns is accepted by the check that sees only the manifest and
      the envelope. */
  lemma SignedManifestVerifies(e: Primitives, seed: nat, manifest: Json, signedAt: string, count: int)
    requires e.d.Sound() && Stops(e, DeriveKey(e, seed), MessageHash(e, manifest))
    requires SignedEnvelope(e, seed, manifest, signedAt, count).Ok?
    ensures VerifyStatic(e, manifest, SignedEnvelope(e, seed, manifest, signedAt, count).value)
  {
    hide EcdsaVerify, DecodeKey, CompressKey, IntBase16, FormatHex, MessageHash, DeriveKey, PublicKey, Ecdsa.Sign;
    hide Times, LadderMul, Associative, IsPrime;
    PublicKeyIsPoint(e, seed);
    SignedInRange(e, seed, manifest);
    var sig := Ecdsa.Sign(e, DeriveKey(e, seed), MessageHash(e, manifest)).value;
    HexRoundTrip(sig.r, 64);
    HexRoundTrip(sig.s, 64);
    KeyRoundTrip(e.d, PublicKey(e, seed));
  }

  // ----- what a signature binds -----

  /** The hash that is signed binds the manifest: unless the canonical texts of two manifests collide
      under SHA-256, their hashes are equal exactly when the manifests are. */
  lemma HashBindsManifest(e: Primitives, a: Json, b: Json)
    requires var x, y := Utf8(Print(a)), Utf8(Print(b)); e.sha256(x) == e.sha256(y) ==> x == y
    ensures MessageHash(e, a) == MessageHash(e, b) <==> a == b
  {
    hide Print, Utf8, Loads;
    if MessageHash(e, a) == MessageHash(e, b) {
      Utf8Injective(Print(a), Print(b));
      LoadsOfPrint(a);
      LoadsOfPrint(b);
    }
  }

  /** An envelope with readable numbers, under the public key of the private key x. */
  ghost predicate Claims(d: Domain, x: nat, envelope: Json, r: int, s: int)
    requires 2 <= d.p
  {
    match (envelope.Get("r"), envelope.Get("s"), envelope.Get("pubkey"))
    case (Some(Str(rText)), Some(Str(sText)), Some(Str(key))) =>
      && IntBase16(rText) == Some(r) && IntBase16(sText) == Some(s)
      && DecodeKey(d, key) == Some(Times(d.p, x, d.G()))
    case _ => false
  }

  /** Exactly when the check accepts an envelope for a manifest: r and s are in range and a nonce explains
      them for the SHA-256 of the manifest's canonical text. */
  lemma AcceptedIffExplained(e: Primitives, x: nat, manifest: Json, envelope: Json, r: int, s: int)
    requires e.d.Sound() && Claims(e.d, x, envelope, r, s)
    ensures VerifyStatic(e, manifest, envelope)
            <==> Explained(e.d, x, FromBigEndian(e.sha256(Utf8(Print(manifest)))), r, s)
  {
    hide EcdsaVerify, DecodeKey, IntBase16, Times, Associative, IsPrime, FromBigEndian, Print, Utf8, Explained;
    var h := e.sha256(Utf8(Print(manifest)));
    assert VerifyStatic(e, manifest, envelope) <==> EcdsaVerify(e.d, Times(e.d.p, x, e.d.G()), h, r, s) == Ok(true);
    VerifiesIffExplained(e.d, x, h, r, s);
  }

  /** The nonces k and l have abscissa r, and s times their difference is the difference of the numbers. */
  ghost predicate NoncesApart(d: Domain, r: int, s: int, y: int, z: int, k: nat, l: nat)
    requires 2 <= d.p && 2 <= d.n
  {
    && Times(d.p, k, d.G()).Affine? && Times(d.p, k, d.G()).x % d.n == r
    && Times(d.p, l, d.G()).Affine? && Times(d.p, l, d.G()).x % d.n == r
    && Cong(d.n, s * (k - l), y - z)
  }

  /** One envelope that passes for two manifests ties their SHA-256 values to two nonces of one abscissa. */
  lemma SignatureBindsManifest(e: Primitives, x: nat, a: Json, b: Json, envelope: Json, r: int, s: int)
    requires e.d.Sound() && Claims(e.d, x, envelope, r, s)
    requires VerifyStatic(e, a, envelope) && VerifyStatic(e, b, envelope)
    ensures exists k: nat, l: nat ::
              NoncesApart(e.d, r, s, FromBigEndian(e.sha256(Utf8(Print(a)))),
                          FromBigEndian(e.sha256(Utf8(Print(b)))), k, l)
  {
    hide VerifyStatic, Claims, Associative, IsPrime, Times, FromBigEndian, Print, Utf8, Explains, NoncesApart;
    AcceptedIffExplained(e, x, a, envelope, r, s);
    AcceptedIffExplained(e, x, b, envelope, r, s);
    var y, z := FromBigEndian(e.sha256(Utf8(Print(a)))), FromBigEndian(e.sha256(Utf8(Print(b))));
    var k: nat :| Explains(e.d, x, y, r, s, k);
    var l: nat :| Explains(e.d, x, z, r, s, l);
    BothExplain(e.d, x, y, z, r, s, k, l);
  }

  lemma BothExplain(d: Domain, x: nat, y: nat, z: nat, r: int, s: int, k: nat, l: nat)
    requires 2 <= d.p && 2 <= d.n && Explains(d, x, y, r, s, k) && Explains(d, x, z, r, s, l)
    ensures NoncesApart(d, r, s, y, z, k, l)
  {
    hide Times, Cong;
    CongAdd(d.n, s * k, y + r * x, s * l, z + r * x);
    assert s * (k - l) == s * k - s * l;
    assert (y + r * x) - (z + r * x) == y - z;
  }

  /** Two seeds share a private key exactly when their HMAC values do: those under the first label, or
      those under the second where the first is zero, or the constant 1 where both are. */
  lemma KeysFromHmac(e: Primitives, seed: nat, octets: seq<byte>, first: seq<byte>, second: seq<byte>)
    requires 2 <= e.d.n && |octets| == 32 && FromBigEndian(octets) == seed
    requires Spells(first, "aether-ephemeral-secp256k1")
    requires Spells(second, "aether-ephemeral-secp256k1-zero-key-retry")
    ensures var x, y := FromBigEndian(e.hmac(first, octets)) % e.d.n, FromBigEndian(e.hmac(second, octets)) % e.d.n;
            && (x != 0 ==> DeriveKey(e, seed) == x)
            && (x == 0 && y != 0 ==> DeriveKey(e, seed) == y)
            && (x == 0 && y == 0 ==> DeriveKey(e, seed) == 1)
  {
    BytesRoundTrip(octets);
    SpelledOnce(first, "aether-ephemeral-secp256k1");
    SpelledOnce(second, "aether-ephemeral-secp256k1-zero-key-retry");
  }

  /** The octets are the ASCII codes of the text. */
  ghost predicate Spells(b: seq<byte>, t: string) {
    |b| == |t| && forall i :: 0 <= i < |t| ==> t[i] as int < 0x80 && b[i] == t[i] as int
  }

  lemma SpelledOnce(b: seq<byte>, t: string)
    requires Spells(b, t)
    ensures b == BytesOf(t)
  {
  }

  /** Two seeds that HMAC under the first label tells apart modulo the order, without giving zero, have
      different keys. */
  lemma KeysApart(e: Primitives, a: nat, b: nat, first: seq<byte>, second: seq<byte>)
    requires 2 <= e.d.n && a < TWO_256 && b < TWO_256
    requires Spells(first, "aether-ephemeral-secp256k1")
    requires Spells(second, "aether-ephemeral-secp256k1-zero-key-retry")
    ensures var x, y := FromBigEndian(e.hmac(first, ToBigEndian(a, 32))) % e.d.n,
                        FromBigEndian(e.hmac(first, ToBigEndian(b, 32))) % e.d.n;
            x != 0 && y != 0 ==> (DeriveKey(e, a) == DeriveKey(e, b) <==> x == y)
  {
    hide DeriveKey, FromBigEndian, ToBigEndian;
    Pow256(32);
    BigEndianRoundTrip(a, 32);
    BigEndianRoundTrip(b, 32);
    KeysFromHmac(e, a, ToBigEndian(a, 32), first, second);
    KeysFromHmac(e, b, ToBigEndian(b, 32), first, second);
  }

  lemma SixtyFourDigits()
    ensures Pow(16, 64) == TWO_256
  {
    assert Pow(16, 2) == 256;
    PowAdd(16, 2, 2);
    PowAdd(16, 4, 4);
    PowAdd(16, 8, 8);
    PowAdd(16, 16, 16);
    PowAdd(16, 32, 32);
  }

  /** The fields of an envelope. */
  lemma EnvelopeFields(sig: Signature, key: string, signedAt: string, count: int)
    requires 0 <= sig.r < TWO_256 && 0 <= sig.s < TWO_256
    ensures var j := Envelope(sig, key, signedAt, count);
            && j.fields.Keys == {"r", "s", "pubkey", "algorithm", "signed_at", "sign_count"}
            && j.Get("r") == Some(Str(FormatHex(sig.r, 64))) && |FormatHex(sig.r, 64)| == 64
            && j.Get("s") == Some(Str(FormatHex(sig.s, 64))) && |FormatHex(sig.s, 64)| == 64
            && j.Get("pubkey") == Some(Str(key)) && j.Get("algorithm") == Some(Str("ecdsa-secp256k1-sha256"))
            && j.Get("signed_at") == Some(Str(signedAt)) && j.Get("sign_count") == Some(Num(count))
  {
    hide FormatHex;
    SixtyFourDigits();
    FormatHexWidth(sig.r, 64);
    FormatHexWidth(sig.s, 64);
  }

  // ----- the signer object -----

  /** `_zero_bytearray`. */
  method ZeroBytes(buf: array<byte>)
    modifies buf
    ensures forall i :: 0 <= i < buf.Length ==> buf[i] == 0
  {
    for i := 0 to buf.Length
      invariant forall j :: 0 <= j < i ==> buf[j] == 0
    {
      buf[i] := 0;
    }
  }

  /** What `destroy` returns, without the lifetime, which is read from the clock. */
  datatype Receipt = Receipt(destroyed: bool, signCount: int)

  class EphemeralSigner {
    const e: Primitives
    ghost const seed: nat
    const privkeyBuf: array<byte>
    var pubkey: Point
    var destroyed: bool
    var signCount: nat

    /** The buffer holds the key derived from the seed until it is destroyed, and zeros after. */
    ghost predicate Valid()
      reads this, privkeyBuf
    {
      && e.d.Sound()
      && privkeyBuf.Length == 32
      && pubkey == PublicKey(e, seed)
      && (!destroyed ==> FromBigEndian(privkeyBuf[..]) == DeriveKey(e, seed))
      && (destroyed ==> forall i :: 0 <= i < 32 ==> privkeyBuf[i] == 0)
    }

    constructor (e: Primitives, seed: nat)
      requires e.d.Sound() && seed < TWO_256
      ensures Valid() && fresh(privkeyBuf)
      ensures this.e == e && this.seed == seed && !destroyed && signCount == 0
    {
      var key := DeriveKey(e, seed);
      Pow256(32);
      BigEndianRoundTrip(key, 32);
      var octets := ToBigEndian(key, 32);
      var buf := new byte[32](i requires 0 <= i < 32 => octets[i]);
      assert buf[..] == octets;
      PublicKeyIsPoint(e, seed);
      var point, _, _ := PointMul(e.d.p, key, e.d.G(), 256);
      this.e, this.seed, privkeyBuf := e, seed, buf;
      pubkey := point.value;
      destroyed, signCount := false, 0;
    }

    /** `public_key_hex`. */
    method PublicKeyHex() returns (r: Result<string>)
      requires Valid()
      ensures pubkey.Affine? && 0 <= pubkey.x
      ensures r == if destroyed then Err(SignerDestroyed) else Ok(CompressKey(pubkey))
    {
      PublicKeyIsPoint(e, seed);
      if destroyed { return Err(SignerDestroyed); }
      return Ok(CompressKey(pubkey));
    }

    /** `sign_manifest`, for manifests on which the nonce loop ends. */
    method SignManifest(manifest: Json, signedAt: string) returns (r: Result<Dict>)
      requires Valid()
      requires !destroyed ==> Stops(e, DeriveKey(e, seed), MessageHash(e, manifest))
      modifies this`signCount
      ensures Valid()
      ensures destroyed ==> r == Err(SignerDestroyed)
      ensures !destroyed ==> r == SignedEnvelope(e, seed, manifest, signedAt, old(signCount) + 1)
      ensures signCount == old(signCount) + if r.Ok? then 1 else 0
    {
      hide DeriveKey, PublicKey, CompressKey, MessageHash, Ecdsa.Sign, FormatHex, Stops, FromBigEndian, EcdsaVerify;
      hide Times, LadderMul, Associative, IsPrime;
      if destroyed { return Err(SignerDestroyed); }
      var hash := MessageHash(e, manifest);
      var sig := EcdsaSign(e, FromBigEndian(privkeyBuf[..]), hash);
      PublicKeyIsPoint(e, seed);
      if sig.Err? { return Err(sig.error); }
      SignedInRange(e, seed, manifest);
      signCount := signCount + 1;
      var key := PublicKeyHex();
      return Ok(Envelope(sig.value, key.value, signedAt, signCount));
    }

    /** `destroy`. */
    method Destroy() returns (receipt: Receipt)
      requires Valid()
      modifies this`destroyed, privkeyBuf
      ensures Valid() && destroyed
      ensures forall i :: 0 <= i < privkeyBuf.Length ==> privkeyBuf[i] == 0
      ensures receipt == Receipt(true, signCount)
    {
      receipt := Receipt(true, signCount);
      ZeroBytes(privkeyBuf);
      destroyed := true;
    }
  }
}
