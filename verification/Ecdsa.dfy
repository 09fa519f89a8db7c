/** Deterministic ECDSA: the nonce of RFC 6979, signing and verification as in SEC 1 version 2,
    sections 4.1.3 and 4.1.4, and the low-s rule of BIP 62. */
module Ecdsa {
  import opened Outcomes
  import opened NumberTheory
  import opened Curve
  import opened Scalars
  import opened Bytes

  /** The curve and the two hash functions, which are parameters of the model. */
  datatype Primitives = Primitives(
    d: Domain,
    sha256: seq<byte> -> seq<byte>,
    hmac: (seq<byte>, seq<byte>) -> seq<byte>)
  {
    ghost predicate Valid() {
      && (forall m :: |sha256(m)| == 32)
      && (forall k, m :: |hmac(k, m)| == 32)
    }

    ghost predicate Sound() {
      Valid() && d.Sound()
    }
  }

  // ----- the deterministic nonce -----

  datatype DrbgState = DrbgState(k: seq<byte>, v: seq<byte>)

  /** The first four HMAC calls, over the octets that represent the hash. */
  function DrbgInit(e: Primitives, priv: nat, h: seq<byte>): DrbgState {
    var v0 := seq(32, _ => 1);
    var k0 := seq(32, _ => 0);
    var key := ToBigEndian(priv, 32);
    var k1 := e.hmac(k0, v0 + [0] + key + h);
    var v1 := e.hmac(k1, v0);
    var k2 := e.hmac(k1, v1 + [1] + key + h);
    DrbgState(k2, e.hmac(k2, v1))
  }

  /** The state after a rejected candidate v. */
  function DrbgReject(e: Primitives, s: DrbgState): DrbgState {
    var v := e.hmac(s.k, s.v);
    var k := e.hmac(s.k, v + [0]);
    DrbgState(k, e.hmac(k, v))
  }

  function DrbgAt(e: Primitives, priv: nat, h: seq<byte>, i: nat): DrbgState {
    if i == 0 then DrbgInit(e, priv, h) else DrbgReject(e, DrbgAt(e, priv, h, i - 1))
  }

  function Candidate(e: Primitives, priv: nat, h: seq<byte>, i: nat): nat {
    var s := DrbgAt(e, priv, h, i);
    FromBigEndian(e.hmac(s.k, s.v))
  }

  predicate Accepts(e: Primitives, priv: nat, h: seq<byte>, i: nat) {
    1 <= Candidate(e, priv, h, i) < e.d.n
  }

  /** i is the first round whose candidate is in range. */
  ghost predicate FirstAccepted(e: Primitives, priv: nat, h: seq<byte>, i: nat) {
    Accepts(e, priv, h, i) && forall j :: 0 <= j < i ==> !Accepts(e, priv, h, j)
  }

  /** The retry loop ends. */
  ghost predicate Stops(e: Primitives, priv: nat, h: seq<byte>) {
    exists i: nat :: FirstAccepted(e, priv, h, i)
  }

  ghost function Nonce(e: Primitives, priv: nat, h: seq<byte>): (k: nat)
    requires Stops(e, priv, h)
    ensures 1 <= k < e.d.n
  {
    var i: nat :| FirstAccepted(e, priv, h, i);
    Candidate(e, priv, h, i)
  }

  lemma NonceIsFirst(e: Primitives, priv: nat, h: seq<byte>, i: nat)
    requires FirstAccepted(e, priv, h, i)
    ensures Stops(e, priv, h) && Nonce(e, priv, h) == Candidate(e, priv, h, i)
  {
    var j: nat :| FirstAccepted(e, priv, h, j) && Nonce(e, priv, h) == Candidate(e, priv, h, j);
    FirstIsUnique(e, priv, h, i, j);
  }

  lemma FirstIsUnique(e: Primitives, priv: nat, h: seq<byte>, i: nat, j: nat)
    requires FirstAccepted(e, priv, h, i) && FirstAccepted(e, priv, h, j)
    ensures i == j
  {
    assert Accepts(e, priv, h, i) && Accepts(e, priv, h, j);
    assert i < j ==> !Accepts(e, priv, h, i);
    assert j < i ==> !Accepts(e, priv, h, j);
  }

  // ----- the nonce as RFC 6979 generates it -----

  /** One pair of steps of section 3.2 of RFC 6979: K is renewed over V and some octets, and V under the
      new K. */
  ghost predicate Renewed(e: Primitives, s: DrbgState, data: seq<byte>, t: DrbgState) {
    t.k == e.hmac(s.k, s.v + data) && t.v == e.hmac(t.k, s.v)
  }

  /** The pairs of K and V in steps b to h over the octets of key and hash: the first three are those
      of steps b and c, d and e, f and g, and each later one comes after a candidate was refused. */
  ghost predicate Generates(e: Primitives, input: seq<byte>, s: seq<DrbgState>) {
    && |s| >= 3
    && s[0] == DrbgState(seq(32, _ => 0), seq(32, _ => 1))
    && Renewed(e, s[0], [0] + input, s[1])
    && Renewed(e, s[1], [1] + input, s[2])
    && forall i :: 3 <= i < |s| ==> Renewed(e, DrbgState(s[i - 1].k, e.hmac(s[i - 1].k, s[i - 1].v)), [0], s[i])
  }

  /** The candidate of step h.2. */
  function Tried(e: Primitives, s: DrbgState): nat {
    FromBigEndian(e.hmac(s.k, s.v))
  }

  /** k is the first candidate in [1, n). */
  ghost predicate GeneratedNonce(e: Primitives, input: seq<byte>, k: nat) {
    exists s :: Generates(e, input, s) && Settles(e, s, k)
  }

  ghost predicate Settles(e: Primitives, s: seq<DrbgState>, k: nat) {
    && |s| >= 3 && Tried(e, s[|s| - 1]) == k && 1 <= k < e.d.n
    && forall i :: 2 <= i < |s| - 1 ==> !(1 <= Tried(e, s[i]) < e.d.n)
  }

  /** int2octets(x) followed by bits2octets(h), for an order and a hash of 256 bits. */
  ghost predicate StandardInput(n: int, x: nat, h: seq<byte>, input: seq<byte>)
    requires 0 < n
  {
    && |input| == 64
    && FromBigEndian(input[..32]) == x
    && FromBigEndian(input[32..]) == FromBigEndian(h) % n
  }

  function States(e: Primitives, priv: nat, h: seq<byte>, i: nat): (s: seq<DrbgState>)
    ensures |s| == i + 3
  {
    var v0, k0 := seq(32, _ => 1), seq(32, _ => 0);
    var k1 := e.hmac(k0, v0 + [0] + ToBigEndian(priv, 32) + h);
    [DrbgState(k0, v0), DrbgState(k1, e.hmac(k1, v0))] + seq(i + 1, j requires 0 <= j <= i => DrbgAt(e, priv, h, j))
  }

  lemma SeedingGenerates(e: Primitives, priv: nat, h: seq<byte>)
    ensures Generates(e, ToBigEndian(priv, 32) + h, States(e, priv, h, 0))
  {
    var input, s := ToBigEndian(priv, 32) + h, States(e, priv, h, 0);
    assert s[0].v + [0] + ToBigEndian(priv, 32) + h == s[0].v + ([0] + input);
    assert s[1].v + [1] + ToBigEndian(priv, 32) + h == s[1].v + ([1] + input);
  }

  lemma {:induction false} StatesGenerate(e: Primitives, priv: nat, h: seq<byte>, i: nat)
    ensures Generates(e, ToBigEndian(priv, 32) + h, States(e, priv, h, i))
  {
    if i == 0 {
      SeedingGenerates(e, priv, h);
    } else {
      hide DrbgInit, Generates;
      StatesGenerate(e, priv, h, i - 1);
      var s := States(e, priv, h, i - 1);
      assert States(e, priv, h, i) == s + [DrbgAt(e, priv, h, i)];
      assert s[|s| - 1] == DrbgAt(e, priv, h, i - 1);
      OneMoreState(e, ToBigEndian(priv, 32) + h, s, DrbgAt(e, priv, h, i));
    }
  }

  lemma OneMoreState(e: Primitives, input: seq<byte>, s: seq<DrbgState>, t: DrbgState)
    requires Generates(e, input, s)
    requires var last := s[|s| - 1]; Renewed(e, DrbgState(last.k, e.hmac(last.k, last.v)), [0], t)
    ensures Generates(e, input, s + [t])
  {
    hide Renewed;
  }

  /** The nonce is generated over the octets of the private key followed by the hash as it is. */
  lemma NonceIsGenerated(e: Primitives, priv: nat, h: seq<byte>)
    requires Stops(e, priv, h)
    ensures GeneratedNonce(e, ToBigEndian(priv, 32) + h, Nonce(e, priv, h))
  {
    hide DrbgInit, DrbgAt, Generates;
    var i: nat :| FirstAccepted(e, priv, h, i) && Nonce(e, priv, h) == Candidate(e, priv, h, i);
    var s := States(e, priv, h, i);
    StatesGenerate(e, priv, h, i);
    assert s[|s| - 1] == DrbgAt(e, priv, h, i);
    forall j | 2 <= j < |s| - 1 ensures !(1 <= Tried(e, s[j]) < e.d.n) {
      assert s[j] == DrbgAt(e, priv, h, j - 2);
      assert !Accepts(e, priv, h, j - 2);
    }
    assert Settles(e, s, Nonce(e, priv, h));
  }

  /** For an order of 256 bits, the octets that are fed are those of the standard exactly when the hash
      integer is below the order. */
  lemma FedIsStandardIff(n: int, x: nat, h: seq<byte>)
    requires TWO_256 / 2 <= n < TWO_256 && |h| == 32 && 1 <= x < n
    ensures StandardInput(n, x, h, ToBigEndian(x, 32) + h) <==> FromBigEndian(h) < n
  {
    hide FromBigEndian, ToBigEndian;
    var input := ToBigEndian(x, 32) + h;
    Pow256(32);
    BigEndianRoundTrip(x, 32);
    assert input[..32] == ToBigEndian(x, 32) && input[32..] == h;
    if FromBigEndian(h) < n { ModUnique(n, FromBigEndian(h), 0, FromBigEndian(h)); }
  }

  /** k is the nonce of RFC 6979 for the private key x and the hash h. */
  ghost predicate IsStandard(e: Primitives, x: nat, h: seq<byte>, k: nat)
    requires 0 < e.d.n
  {
    exists input :: StandardInput(e.d.n, x, h, input) && GeneratedNonce(e, input, k)
  }

  lemma NonceIsStandardIf(e: Primitives, x: nat, h: seq<byte>)
    requires Stops(e, x, h)
    ensures TWO_256 / 2 <= e.d.n < TWO_256 && |h| == 32 && 1 <= x < e.d.n && FromBigEndian(h) < e.d.n ==>
              IsStandard(e, x, h, Nonce(e, x, h))
  {
    hide IsStandard, Stops;
    if TWO_256 / 2 <= e.d.n < TWO_256 && |h| == 32 && 1 <= x < e.d.n && FromBigEndian(h) < e.d.n {
      NonceIsStandard(e, x, h);
    }
  }

  /** For an order of 256 bits, the nonce is the one of RFC 6979 whenever the hash integer is below the
      order. */
  lemma NonceIsStandard(e: Primitives, x: nat, h: seq<byte>)
    requires TWO_256 / 2 <= e.d.n < TWO_256 && |h| == 32 && 1 <= x < e.d.n && Stops(e, x, h)
    requires FromBigEndian(h) < e.d.n
    ensures IsStandard(e, x, h, Nonce(e, x, h))
  {
    hide GeneratedNonce, StandardInput, FromBigEndian, ToBigEndian, Stops;
    FedIsStandardIff(e.d.n, x, h);
    NonceIsGenerated(e, x, h);
  }

  /** The octets over which a nonce is generated determine it. */
  lemma InputDetermines(e: Primitives, input: seq<byte>, k: nat, l: nat)
    requires GeneratedNonce(e, input, k) && GeneratedNonce(e, input, l)
    ensures k == l
  {
    hide Generates;
    var s :| Generates(e, input, s) && Settles(e, s, k);
    var t :| Generates(e, input, t) && Settles(e, t, l);
    if |s| <= |t| {
      SameStates(e, input, s, t, |s| - 1);
    } else {
      SameStates(e, input, s, t, |t| - 1);
    }
  }

  lemma {:induction false} SameStates(e: Primitives, input: seq<byte>, s: seq<DrbgState>, t: seq<DrbgState>, i: nat)
    requires Generates(e, input, s) && Generates(e, input, t) && i < |s| && i < |t|
    ensures s[i] == t[i]
  {
    if i > 0 { SameStates(e, input, s, t, i - 1); }
  }

  /** Two private keys, or two hashes that differ modulo the order, never share these octets. */
  lemma KeysFeedApart(n: int, x: nat, y: nat, g: seq<byte>, h: seq<byte>, input: seq<byte>)
    requires 0 < n && StandardInput(n, x, g, input) && StandardInput(n, y, h, input)
    ensures x == y && FromBigEndian(g) % n == FromBigEndian(h) % n
  {
  }

  /** `_rfc6979_k`, for inputs on which the retry loop ends. */
  method Rfc6979K(e: Primitives, priv: nat, h: seq<byte>) returns (candidate: nat)
    requires Stops(e, priv, h)
    ensures candidate == Nonce(e, priv, h) && 1 <= candidate < e.d.n
    ensures TWO_256 / 2 <= e.d.n < TWO_256 && |h| == 32 && 1 <= priv < e.d.n && FromBigEndian(h) < e.d.n ==>
              IsStandard(e, priv, h, candidate)
  {
    hide IsStandard;
    NonceIsStandardIf(e, priv, h);
    ghost var last: nat :| FirstAccepted(e, priv, h, last);
    var v := seq(32, _ => 1);
    var k := seq(32, _ => 0);
    var key := ToBigEndian(priv, 32);
    k := e.hmac(k, v + [0] + key + h);
    v := e.hmac(k, v);
    k := e.hmac(k, v + [1] + key + h);
    v := e.hmac(k, v);
    ghost var i := 0;
    while true
      invariant i <= last && DrbgAt(e, priv, h, i) == DrbgState(k, v)
      decreases last - i
    {
      v := e.hmac(k, v);
      candidate := FromBigEndian(v);
      assert candidate == Candidate(e, priv, h, i);
      if 1 <= candidate < e.d.n {
        assert Accepts(e, priv, h, i);
        NonceIsFirst(e, priv, h, last);
        return;
      }
      assert !Accepts(e, priv, h, i);
      k := e.hmac(k, v + [0]);
      v := e.hmac(k, v);
      i := i + 1;
    }
  }

  /** `bits2octets` of section 2.3.4 of RFC 6979, for a hash and an order of 256 bits each. */
  function Bits2Octets(n: int, h: seq<byte>): seq<byte>
    requires 0 < n
  {
    ToBigEndian(FromBigEndian(h) % n, 32)
  }

  /** The source feeds the raw hash to HMAC where section 3.2 of RFC 6979 feeds `bits2octets` of
      it: for an order of 256 bits the octets are the same exactly when the hash integer is below it. */
  lemma RawHashIsBits2Octets(n: int, h: seq<byte>)
    requires TWO_256 / 2 <= n < TWO_256 && |h| == 32
    ensures h == Bits2Octets(n, h) <==> FromBigEndian(h) < n
  {
    var z := FromBigEndian(h);
    BytesRoundTrip(h);
    Pow256(32);
    if z < n {
      ModUnique(n, z, 0, z);
    } else {
      BigEndianRoundTrip(z % n, 32);
    }
  }

  lemma Pow256(len: nat)
    requires len == 32
    ensures Pow(256, len) == TWO_256
  {
    assert Pow(256, 2) == 65536;
    PowAdd(256, 2, 2);
    PowAdd(256, 4, 4);
    PowAdd(256, 8, 8);
    PowAdd(256, 16, 16);
  }

  // ----- signing and verifying -----

  datatype Signature = Signature(r: int, s: int)

  /** `_ecdsa_sign` once the nonce is known. */
  function SignWith(d: Domain, priv: nat, z: nat, k: nat): Result<Signature>
    requires 2 <= d.p && 2 <= d.n
  {
    var point :- LadderMul(d.p, k, d.G(), 256);
    if point.Infinity? then Err(NoPoint)
    else
      var r := point.x % d.n;
      if r == 0 then Err(InvalidR)
      else
        var w :- ModInv(k, d.n);
        var s := (w * (z + r * priv)) % d.n;
        if s == 0 then Err(InvalidS)
        else Ok(Signature(r, if s > d.n / 2 then d.n - s else s))
  }

  ghost function Sign(e: Primitives, priv: nat, h: seq<byte>): Result<Signature>
    requires 2 <= e.d.p && 2 <= e.d.n && Stops(e, priv, h)
  {
    SignWith(e.d, priv, FromBigEndian(h), Nonce(e, priv, h))
  }

  /** `_ecdsa_sign`. */
  method EcdsaSign(e: Primitives, priv: nat, h: seq<byte>) returns (res: Result<Signature>)
    requires 2 <= e.d.p && 2 <= e.d.n && Stops(e, priv, h)
    ensures res == Sign(e, priv, h)
  {
    hide FromBigEndian, LadderMul, ModInv;
    var z := FromBigEndian(h);
    var k := Rfc6979K(e, priv, h);
    var point, _, _ := PointMul(e.d.p, k, e.d.G(), 256);
    if point.Err? { return Err(point.error); }
    if point.value.Infinity? { return Err(NoPoint); }
    var r := point.value.x % e.d.n;
    if r == 0 { return Err(InvalidR); }
    var w := ModInv(k, e.d.n);
    if w.Err? { return Err(w.error); }
    var s := (w.value * (z + r * priv)) % e.d.n;
    if s == 0 { return Err(InvalidS); }
    if s > e.d.n / 2 { s := e.d.n - s; }
    return Ok(Signature(r, s));
  }

  /** `_ecdsa_verify`. */
  function EcdsaVerify(d: Domain, pub: Point, h: seq<byte>, r: int, s: int): Result<bool>
    requires 2 <= d.p && 2 <= d.n
  {
    if !(1 <= r < d.n && 1 <= s < d.n) then Ok(false)
    else
      var z := FromBigEndian(h);
      var w :- ModInv(s, d.n);
      var u1 := (z * w) % d.n;
      var u2 := (r * w) % d.n;
      var a :- LadderMul(d.p, u1, d.G(), 256);
      var b :- LadderMul(d.p, u2, pub, 256);
      var point :- PointAdd(d.p, a, b);
      Ok(point.Affine? && point.x % d.n == r)
  }

  // ----- the verification equation -----

  /** In a group of odd prime order no point has y = 0, so `_point_add` does not raise. */
  lemma AddDefined(p: int, n: int, a: Point, b: Point)
    requires IsGroup(p) && IsPrime(n) && n != 2
    requires OnCurve(p, a) && OnCurve(p, b) && Times(p, n, a) == Infinity
    ensures PointAdd(p, a, b) == Ok(Plus(p, a, b))
  {
    PointAddClosed(p, a, b);
    if a == b && a.Affine? && a.y == 0 {
      TimesOne(p, a);
      TimesAdd(p, 1, 1, a);
      ModUnique(n, 2, 0, 2);
      OrderExact(p, n, 2, a);
    }
  }

  /** Multiples of a point killed by n are killed by n. */
  lemma MultipleKilled(p: int, n: int, k: nat, a: Point)
    requires IsGroup(p) && 0 < n && OnCurve(p, a) && Times(p, n, a) == Infinity
    ensures OnCurve(p, Times(p, k, a)) && Times(p, n, Times(p, k, a)) == Infinity
  {
    TimesOnCurve(p, k, a);
    TimesTimes(p, n, k, a);
    TimesTimes(p, k, n, a);
    assert n * k == k * n;
    TimesInfinity(p, k);
  }

  /** The point that verification compares: u1*G + u2*Q for the scalars that w gives. */
  ghost function Combined(d: Domain, pub: Point, z: nat, r: nat, w: nat): Point
    requires 2 <= d.p && 2 <= d.n
  {
    Plus(d.p, Times(d.p, (z * w) % d.n, d.G()), Times(d.p, (r * w) % d.n, pub))
  }

  /** For a key in the group, verification never raises and tests the abscissa of that point. */
  lemma VerifyTests(d: Domain, pub: Point, h: seq<byte>, r: int, s: int)
    requires d.Sound() && OnCurve(d.p, pub) && Times(d.p, d.n, pub) == Infinity
    requires 1 <= r < d.n && 1 <= s < d.n
    ensures ModInv(s, d.n).Ok? && 0 < ModInv(s, d.n).value < d.n
    ensures var c := Combined(d, pub, FromBigEndian(h), r, ModInv(s, d.n).value);
            OnCurve(d.p, c) && EcdsaVerify(d, pub, h, r, s) == Ok(c.Affine? && c.x % d.n == r)
  {
    hide LadderMul, PointAdd, Plus;
    ModUnique(d.n, s, 0, s);
    ModInvCorrect(s, d.n);
    var z, w := FromBigEndian(h), ModInv(s, d.n).value;
    var u1, u2 := (z * w) % d.n, (r * w) % d.n;
    PointMulIsTimes(d.p, u1, d.G());
    PointMulIsTimes(d.p, u2, pub);
    MultipleKilled(d.p, d.n, u1, d.G());
    MultipleKilled(d.p, d.n, u2, pub);
    AddDefined(d.p, d.n, Times(d.p, u1, d.G()), Times(d.p, u2, pub));
    PlusClosed(d.p, Times(d.p, u1, d.G()), Times(d.p, u2, pub));
  }

  lemma ProductOfComplements(n: int, s: int, w: int)
    ensures (n - s) * (n - w) - s * w == n * (n - s - w)
  {
    assert (n - s) * (n - w) == n * n - n * w - s * n + s * w;
  }

  lemma ComplementInverse(n: int, s: int)
    requires IsPrime(n) && 1 <= s < n
    ensures ModInv(s, n).Ok? && ModInv(n - s, n).Ok? && 0 < ModInv(s, n).value < n
    ensures ModInv(n - s, n).value == n - ModInv(s, n).value
  {
    ModUnique(n, s, 0, s);
    ModUnique(n, n - s, 0, n - s);
    ModInvCorrect(s, n);
    ModInvCorrect(n - s, n);
    var w, v := ModInv(s, n).value, ModInv(n - s, n).value;
    ProductOfComplements(n, s, w);
    MultipleIsZero(n, n - s - w);
    CongTrans(n, (n - s) * (n - w), s * w, 1);
    CongSym(n, (n - s) * (n - w), 1);
    CongTrans(n, (n - s) * v, 1, (n - s) * (n - w));
    CongCancel(n, n - s, v, n - w);
    CongReduced(n, v, n - w);
  }

  lemma ComplementResidue(n: int, z: nat, w: int)
    requires 0 < w < n
    ensures 0 <= z * (n - w) && 0 <= z * w && Cong(n, z * (n - w), n - (z * w) % n)
  {
    var u := (z * w) % n;
    CongMod(n, z * w);
    MultipleIsZero(n, z - 1);
    ZeroAdd(n, n * (z - 1), z * w - u);
    ComplementIdentity(n, z, w, u);
  }

  lemma ComplementIdentity(n: int, z: int, w: int, u: int)
    ensures z * (n - w) - (n - u) == n * (z - 1) - (z * w - u)
  {
  }

  /** The scalar for the complementary inverse gives the opposite multiple. */
  lemma ComplementScalar(p: int, n: int, z: nat, w: int, a: Point)
    requires IsGroup(p) && IsPrime(n) && OnCurve(p, a) && Times(p, n, a) == Infinity && 0 < w < n
    ensures Times(p, (z * (n - w)) % n, a) == Neg(p, Times(p, (z * w) % n, a))
  {
    var u := (z * w) % n;
    hide Plus, Times;
    TimesComplement(p, n, u, a);
    ComplementResidue(n, z, w);
    TimesCong(p, n, z * (n - w), n - u, a);
    TimesMod(p, n, z * (n - w), a);
  }

  lemma CombinedComplement(d: Domain, pub: Point, z: nat, r: nat, w: nat)
    requires d.Sound() && OnCurve(d.p, pub) && Times(d.p, d.n, pub) == Infinity && 0 < w < d.n
    ensures Combined(d, pub, z, r, d.n - w) == Neg(d.p, Combined(d, pub, z, r, w))
  {
    hide Plus;
    ComplementScalar(d.p, d.n, z, w, d.G());
    ComplementScalar(d.p, d.n, r, w, pub);
    TimesOnCurve(d.p, (z * w) % d.n, d.G());
    TimesOnCurve(d.p, (r * w) % d.n, pub);
    NegPlus(d.p, Times(d.p, (z * w) % d.n, d.G()), Times(d.p, (r * w) % d.n, pub));
  }

  lemma LowSInRange(d: Domain, pub: Point, h: seq<byte>, r: int, s: int)
    requires d.Sound() && OnCurve(d.p, pub) && Times(d.p, d.n, pub) == Infinity
    requires 1 <= r < d.n && 1 <= s < d.n
    ensures EcdsaVerify(d, pub, h, r, d.n - s) == EcdsaVerify(d, pub, h, r, s)
  {
    hide EcdsaVerify, Combined, ModInv, FromBigEndian, Times, Plus, Associative, OnCurve;
    VerifyTests(d, pub, h, r, s);
    VerifyTests(d, pub, h, r, d.n - s);
    ComplementInverse(d.n, s);
    CombinedComplement(d, pub, FromBigEndian(h), r, ModInv(s, d.n).value);
  }

  /** Replacing s by n - s never changes the answer of `_ecdsa_verify`, for every key of the
      group, every hash, every r and every s in range. */
  lemma LowSPreservesMeaning(d: Domain, pub: Point, h: seq<byte>, r: int, s: int)
    requires d.Sound() && OnCurve(d.p, pub) && Times(d.p, d.n, pub) == Infinity
    requires 1 <= s < d.n
    ensures EcdsaVerify(d, pub, h, r, d.n - s) == EcdsaVerify(d, pub, h, r, s)
  {
    if 1 <= r < d.n {
      LowSInRange(d, pub, h, r, s);
    } else {
      assert EcdsaVerify(d, pub, h, r, s) == Ok(false);
      assert EcdsaVerify(d, pub, h, r, d.n - s) == Ok(false);
    }
  }

  /** z*w + (r*w)*x is the nonce again, modulo n, when s = k^-1 * (z + r*x). */
  lemma ScalarsRecoverNonce(n: int, z: nat, r: nat, x: nat, k: int, v: int, s: int, w: int)
    requires 0 < n && Cong(n, k * v, 1) && Cong(n, s * w, 1) && Cong(n, s, v * (z + r * x))
    ensures Cong(n, z * w + (r * w) * x, k)
  {
    var m := z + r * x;
    assert z * w + (r * w) * x == m * w by { MulAssoc(r, w, x); MulAssoc(r, x, w); }
    assert Cong(n, m * w, m * w) by { CongIff(n, m * w, m * w); }
    assert Cong(n, k, k) by { CongIff(n, k, k); }
    assert Cong(n, w, w) by { CongIff(n, w, w); }
    CongMul(n, k * v, 1, m * w, m * w);
    CongSym(n, (k * v) * (m * w), m * w);
    CongMul(n, s, v * m, w, w);
    CongMul(n, k, k, s * w, (v * m) * w);
    CongSym(n, k * (s * w), k * ((v * m) * w));
    CongMul(n, k, k, s * w, 1);
    assert (k * v) * (m * w) == k * ((v * m) * w) by { MulAssoc(v, m, w); MulAssoc(k, v, m * w); }
    CongTrans(n, m * w, (k * v) * (m * w), k * (s * w));
    CongTrans(n, m * w, k * (s * w), k);
  }

  lemma CombinedIsMultiple(d: Domain, x: nat, z: nat, r: nat, w: nat)
    requires d.Sound()
    ensures 0 <= z * w + (r * w) * x
    ensures Combined(d, Times(d.p, x, d.G()), z, r, w) == Times(d.p, z * w + (r * w) * x, d.G())
  {
    hide Times, Plus;
    var g := d.G();
    var pub := Times(d.p, x, g);
    assert 0 <= z * w && 0 <= r * w && 0 <= (r * w) * x;
    MultipleKilled(d.p, d.n, x, g);
    TimesMod(d.p, d.n, z * w, g);
    TimesMod(d.p, d.n, r * w, pub);
    TimesTimes(d.p, r * w, x, g);
    TimesAdd(d.p, z * w, (r * w) * x, g);
  }

  /** Every signature that `_ecdsa_sign` returns is in range, has a low s, and verifies under the
      public key of the private key that made it. */
  lemma SignatureVerifies(d: Domain, x: nat, h: seq<byte>, k: nat)
    requires d.Sound() && 1 <= k < d.n
    requires SignWith(d, x, FromBigEndian(h), k).Ok?
    ensures var sig := SignWith(d, x, FromBigEndian(h), k).value;
            && 1 <= sig.r < d.n && 1 <= sig.s <= d.n / 2
            && EcdsaVerify(d, Times(d.p, x, d.G()), h, sig.r, sig.s) == Ok(true)
  {
    hide EcdsaVerify, LadderMul, Plus, Associative;
    var z, g := FromBigEndian(h), d.G();
    var pub := Times(d.p, x, g);
    PointMulIsTimes(d.p, k, g);
    var r := Times(d.p, k, g).x % d.n;
    var v := ModInv(k, d.n).value;
    var s := (v * (z + r * x)) % d.n;
    ModUnique(d.n, k, 0, k);
    ModInvCorrect(k, d.n);
    MultipleKilled(d.p, d.n, x, g);
    VerifyTests(d, pub, h, r, s);
    var w := ModInv(s, d.n).value;
    ModInvCorrect(s, d.n);
    CongMod(d.n, v * (z + r * x));
    ScalarsRecoverNonce(d.n, z, r, x, k, v, s, w);
    CombinedIsMultiple(d, x, z, r, w);
    TimesCong(d.p, d.n, z * w + (r * w) * x, k, g);
    assert EcdsaVerify(d, pub, h, r, s) == Ok(true);
    LowSPreservesMeaning(d, pub, h, r, s);
  }

  /** The scalar u1 + u2*x is determined by s: it is the k with s*k = z + r*x. */
  lemma CombinedScalar(n: int, z: nat, r: nat, x: nat, s: int, w: int, k: int)
    requires 0 < n && Cong(n, s * w, 1)
    ensures Cong(n, s * k, z + r * x) <==> Cong(n, z * w + (r * w) * x, k)
  {
    var m := z + r * x;
    assert z * w + (r * w) * x == m * w by { MulAssoc(r, w, x); MulAssoc(r, x, w); }
    if Cong(n, s * k, m) {
      ScaleCong(n, w, s * k, m);
      assert (s * w) * k == w * (s * k) by { MulAssoc(w, s, k); }
      ScaleCong(n, k, s * w, 1);
      assert k * (s * w) == (s * w) * k && w * m == m * w;
      CongSym(n, w * (s * k), w * m);
      CongTrans(n, m * w, w * (s * k), k);
    }
    if Cong(n, m * w, k) {
      ScaleCong(n, s, m * w, k);
      CongSym(n, s * (m * w), s * k);
      ScaleCong(n, m, s * w, 1);
      assert s * (m * w) == m * (s * w) by { MulAssoc(s, m, w); MulAssoc(m, s, w); }
      CongTrans(n, s * k, s * (m * w), m);
    }
  }

  lemma ScaleCong(n: int, k: int, a: int, b: int)
    requires 0 < n && Cong(n, a, b)
    ensures Cong(n, k * a, k * b)
  {
    ZeroScale(n, a - b, k);
    assert k * (a - b) == k * a - k * b;
  }

  /** A nonce explains a signature: it satisfies the signing equation and its point has abscissa r. */
  ghost predicate Explains(d: Domain, x: nat, z: nat, r: int, s: int, k: nat)
    requires 2 <= d.p && 2 <= d.n
  {
    && 1 <= k < d.n && Cong(d.n, s * k, z + r * x)
    && var point := Times(d.p, k, d.G()); point.Affine? && point.x % d.n == r
  }

  /** Some nonce in range explains the signature. */
  ghost predicate Explained(d: Domain, x: nat, z: nat, r: int, s: int)
    requires 2 <= d.p && 2 <= d.n
  {
    1 <= r < d.n && 1 <= s < d.n && exists k: nat :: Explains(d, x, z, r, s, k)
  }

  /** Verification accepts exactly the signatures that the signing equation explains: r and s are in
      range and some nonce in range gives them under the private key. */
  lemma VerifiesIffExplained(d: Domain, x: nat, h: seq<byte>, r: int, s: int)
    requires d.Sound()
    ensures EcdsaVerify(d, Times(d.p, x, d.G()), h, r, s) == Ok(true)
            <==> Explained(d, x, FromBigEndian(h), r, s)
  {
    if 1 <= r < d.n && 1 <= s < d.n {
      VerifiesInRange(d, x, h, r, s);
    } else {
      assert EcdsaVerify(d, Times(d.p, x, d.G()), h, r, s) == Ok(false);
    }
  }

  lemma VerifiesInRange(d: Domain, x: nat, h: seq<byte>, r: int, s: int)
    requires d.Sound() && 1 <= r < d.n && 1 <= s < d.n
    ensures EcdsaVerify(d, Times(d.p, x, d.G()), h, r, s) == Ok(true)
            <==> exists k: nat :: Explains(d, x, FromBigEndian(h), r, s, k)
  {
    hide EcdsaVerify, ModInv, FromBigEndian, Plus, Times, Associative;
    var z, g := FromBigEndian(h), d.G();
    MultipleKilled(d.p, d.n, x, g);
    VerifyTests(d, Times(d.p, x, g), h, r, s);
    var w := ModInv(s, d.n).value;
    ModInvCorrect(s, d.n);
    CombinedIsMultiple(d, x, z, r, w);
    var m := z * w + (r * w) * x;
    OrderExact(d.p, d.n, m, g);
    TimesMod(d.p, d.n, m, g);
    if Times(d.p, m, g).Affine? && Times(d.p, m, g).x % d.n == r {
      CongMod(d.n, m);
      CombinedScalar(d.n, z, r, x, s, w, m % d.n);
      assert Explains(d, x, z, r, s, m % d.n);
    }
    if k: nat :| Explains(d, x, z, r, s, k) {
      CombinedScalar(d.n, z, r, x, s, w, k);
      TimesCong(d.p, d.n, m, k, g);
    }
  }

  /** Signing fails only when the point of the nonce or the signing equation gives zero; it never
      asks for an inverse that does not exist nor for the abscissa of infinity. */
  lemma SigningFailsOnZero(d: Domain, x: nat, z: nat, k: nat)
    requires d.Sound() && 1 <= k < d.n
    ensures Times(d.p, k, d.G()).Affine?
    ensures var r := Times(d.p, k, d.G()).x % d.n;
            && (SignWith(d, x, z, k) == Err(InvalidR) <==> r == 0)
            && (SignWith(d, x, z, k) == Err(InvalidS) <==> r != 0 && (z + r * x) % d.n == 0)
            && (SignWith(d, x, z, k).Ok? <==> r != 0 && (z + r * x) % d.n != 0)
  {
    hide LadderMul, Plus, Times, Associative;
    ModUnique(d.n, k, 0, k);
    OrderExact(d.p, d.n, k, d.G());
    PointMulIsTimes(d.p, k, d.G());
    ModInvCorrect(k, d.n);
    var m := z + (Times(d.p, k, d.G()).x % d.n) * x;
    var w := ModInv(k, d.n).value;
    ModUnique(d.n, w, 0, w);
    if (w * m) % d.n == 0 {
      Euclid(d.n, w, m);
    } else if m % d.n == 0 {
      ZeroScale(d.n, m, w);
    }
  }
}
