/** Seed commitments with their time window, and the key that signs once. */
module OneShot {
  import opened Outcomes
  import opened NumberTheory
  import opened Scalars
  import opened Bytes
  import opened Json
  import opened Ecdsa
  import opened Signer

  const DEFAULT_KEY_LIFETIME_SECONDS := 3600
  const SHOR_EARLIEST_ATTACK_SECONDS := 7 * 24 * 3600

  predicate IsMeasurementMethod(m: string) {
    m == "CSPRNG" || m == "OS_URANDOM"
  }

  /** A seed is given as an integer or as bytes. */
  datatype Seed = IntSeed(n: nat) | ByteSeed(b: seq<byte>) {
    function Value(): nat {
      match this
      case IntSeed(n) => n
      case ByteSeed(b) => FromBigEndian(b)
    }

    function Octets(): seq<byte> {
      match this
      case IntSeed(n) => ToBigEndian(n, 32)
      case ByteSeed(b) => b
    }

    /** The hash recorded for the seed. */
    function Hash(e: Primitives): string {
      HexOfBytes(e.sha256(Octets()))
    }
  }

  datatype SeedCommitment = SeedCommitment(
    seedHash: string, measuredAt: int, measurementMethod: string, createdAt: int, expiresAt: int)
  {
    /** What the constructor demands of its fields. */
    predicate Accepted() {
      && |seedHash| == 64
      && IsMeasurementMethod(measurementMethod)
      && createdAt < expiresAt
    }

    /** `temporal_window_dict`. */
    function Window(): Json {
      Obj(map[
        "created_at" := Num(createdAt),
        "expires_at" := Num(expiresAt),
        "shor_earliest_attack" := Num(createdAt + SHOR_EARLIEST_ATTACK_SECONDS)])
    }
  }

  /** `QuantumEphemeralKey.__init__` up to the seed commitment. */
  function CommitSeed(e: Primitives, seed: Seed, measurement: string, lifetime: int, now: int): Result<SeedCommitment> {
    var c := SeedCommitment(seed.Hash(e), now, measurement, now, now + lifetime);
    if c.Accepted() then Ok(c) else Err(BadSeedCommitment)
  }

  /** The window of a key: an hour, which ends long before the seven days that an attack takes. */
  lemma WindowFields(c: SeedCommitment)
    ensures var j := c.Window();
            && j.Get("created_at") == Some(Num(c.createdAt)) && j.Get("expires_at") == Some(Num(c.expiresAt))
            && j.Get("shor_earliest_attack") == Some(Num(c.createdAt + 604800))
    ensures DEFAULT_KEY_LIFETIME_SECONDS == 3600
  {
  }

  /** A recorded hash binds the octets of the seed, and an integer is hashed as its 32 octets. */
  lemma SeedHashBinds(e: Primitives, a: Seed, b: Seed)
    requires e.sha256(a.Octets()) == e.sha256(b.Octets()) ==> a.Octets() == b.Octets()
    ensures a.Hash(e) == b.Hash(e) <==> a.Octets() == b.Octets()
    ensures a.ByteSeed? ==> a.Octets() == a.b && a.Value() == FromBigEndian(a.b)
    ensures a.IntSeed? && a.n < TWO_256 ==> |a.Octets()| == 32 && FromBigEndian(a.Octets()) == a.n == a.Value()
  {
    hide HexOfBytes, FromBigEndian, ToBigEndian;
    if a.Hash(e) == b.Hash(e) { HexOfBytesInjective(e.sha256(a.Octets()), e.sha256(b.Octets())); }
    if a.IntSeed? && a.n < TWO_256 {
      Pow256(32);
      BigEndianRoundTrip(a.n, 32);
    }
  }

  // ----- the key as a state machine -----

  /** What can be observed of a key: whether it is destroyed, the private buffer, the number of
      signatures made and the public key. */
  datatype KeyState = KeyState(destroyed: bool, buffer: seq<byte>, signCount: nat, publicKeyHex: string)

  ghost predicate AllZero(b: seq<byte>) {
    forall i :: 0 <= i < |b| ==> b[i] == 0
  }

  datatype SignCall = SignCall(message: Json, signedAt: string)

  /** The nonce loop ends on this message. */
  ghost predicate Signable(e: Primitives, seed: nat, message: Json)
    requires e.d.Sound()
  {
    Stops(e, DeriveKey(e, seed), MessageHash(e, message))
  }

  ghost function KeyStep(e: Primitives, seed: nat, s: KeyState, c: SignCall): (KeyState, Result<Dict>)
    requires e.d.Sound() && Signable(e, seed, c.message)
  {
    if s.destroyed then (s, Err(KeyDestroyed))
    else
      var r := SignedEnvelope(e, seed, c.message, c.signedAt, s.signCount + 1);
      if r.Err? then (s, r)
      else (s.(destroyed := true, buffer := seq(|s.buffer|, _ => 0), signCount := s.signCount + 1), r)
  }

  ghost predicate AllSignable(e: Primitives, seed: nat, calls: seq<SignCall>)
    requires e.d.Sound()
  {
    forall i :: 0 <= i < |calls| ==> Signable(e, seed, calls[i].message)
  }

  /** The state after the first calls. */
  ghost function StateAfter(e: Primitives, seed: nat, s: KeyState, calls: seq<SignCall>): KeyState
    requires e.d.Sound() && AllSignable(e, seed, calls)
  {
    if calls == [] then s
    else
      var init := calls[..|calls| - 1];
      KeyStep(e, seed, StateAfter(e, seed, s, init), calls[|calls| - 1]).0
  }

  /** The outcome of call i of a run. */
  ghost function Outcome(e: Primitives, seed: nat, s: KeyState, calls: seq<SignCall>, i: nat): Result<Dict>
    requires e.d.Sound() && AllSignable(e, seed, calls) && i < |calls|
  {
    KeyStep(e, seed, StateAfter(e, seed, s, calls[..i]), calls[i]).1
  }

  lemma {:induction false} RunSplit(e: Primitives, seed: nat, s: KeyState, calls: seq<SignCall>, i: nat)
    requires e.d.Sound() && AllSignable(e, seed, calls) && i < |calls|
    ensures StateAfter(e, seed, s, calls[..i + 1])
         == KeyStep(e, seed, StateAfter(e, seed, s, calls[..i]), calls[i]).0
  {
    assert calls[..i + 1][..i] == calls[..i];
  }

  /** A destroyed key stays as it is. */
  lemma {:induction false} SpentForever(e: Primitives, seed: nat, s: KeyState, calls: seq<SignCall>, i: nat, j: nat)
    requires e.d.Sound() && AllSignable(e, seed, calls) && i <= j <= |calls|
    requires StateAfter(e, seed, s, calls[..i]).destroyed
    ensures StateAfter(e, seed, s, calls[..j]) == StateAfter(e, seed, s, calls[..i])
    decreases j
  {
    hide Domain.Sound, SignedEnvelope, Signable;
    if i < j {
      SpentForever(e, seed, s, calls, i, j - 1);
      RunSplit(e, seed, s, calls, j - 1);
    }
  }

  lemma {:induction false} LiveUntouched(e: Primitives, seed: nat, s: KeyState, calls: seq<SignCall>, i: nat)
    requires e.d.Sound() && AllSignable(e, seed, calls) && i <= |calls|
    requires !StateAfter(e, seed, s, calls[..i]).destroyed
    ensures StateAfter(e, seed, s, calls[..i]) == s
    decreases i
  {
    if i > 0 {
      RunSplit(e, seed, s, calls, i - 1);
      LiveUntouched(e, seed, s, calls, i - 1);
    } else {
      assert calls[..0] == [];
    }
  }

  lemma EnvelopeCount(e: Primitives, seed: nat, message: Json, signedAt: string, count: int)
    requires e.d.Sound() && Signable(e, seed, message)
    requires SignedEnvelope(e, seed, message, signedAt, count).Ok?
    ensures SignedEnvelope(e, seed, message, signedAt, count).value.Get("sign_count") == Some(Num(count))
  {
  }

  /** One step on a live key that returns an envelope spends the key. */
  lemma StepSpends(e: Primitives, seed: nat, s: KeyState, c: SignCall)
    requires e.d.Sound() && Signable(e, seed, c.message)
    requires KeyStep(e, seed, s, c).1.Ok?
    ensures !s.destroyed
    ensures var t, r := KeyStep(e, seed, s, c).0, KeyStep(e, seed, s, c).1;
            && t.destroyed && t.signCount == s.signCount + 1 && AllZero(t.buffer)
            && r.value.Get("sign_count") == Some(Num(s.signCount + 1))
            && VerifyStatic(e, c.message, r.value)
  {
    hide SignedEnvelope, VerifyStatic;
    EnvelopeCount(e, seed, c.message, c.signedAt, s.signCount + 1);
    SignedManifestVerifies(e, seed, c.message, c.signedAt, s.signCount + 1);
  }

  /** Over any sequence of calls on a fresh key: whatever call i does, the public key shown never
      changes; if call i returns an envelope, the envelope is the first and only one, its
      sign_count is 1, the buffer is all zero after that call and after every later one, and every
      later call raises. */
  lemma OneShotRun(e: Primitives, seed: nat, s: KeyState, calls: seq<SignCall>, i: nat)
    requires e.d.Sound() && AllSignable(e, seed, calls) && i < |calls|
    requires !s.destroyed && s.signCount == 0
    ensures StateAfter(e, seed, s, calls).publicKeyHex == s.publicKeyHex
    ensures var r := Outcome(e, seed, s, calls, i);
            r.Ok? ==>
              && r.value.Get("sign_count") == Some(Num(1))
              && VerifyStatic(e, calls[i].message, r.value)
              && (forall j :: 0 <= j < i ==> Outcome(e, seed, s, calls, j).Err?)
              && (forall j :: i < j < |calls| ==> Outcome(e, seed, s, calls, j) == Err(KeyDestroyed))
              && (forall j :: i < j <= |calls| ==>
                    var t := StateAfter(e, seed, s, calls[..j]);
                    t.destroyed && t.signCount == 1 && AllZero(t.buffer))
  {
    hide SignedEnvelope, VerifyStatic, Signable;
    KeyShown(e, seed, s, calls);
    if Outcome(e, seed, s, calls, i).Ok? {
      StepSpends(e, seed, StateAfter(e, seed, s, calls[..i]), calls[i]);
      LiveUntouched(e, seed, s, calls, i);
      RunSplit(e, seed, s, calls, i);
      forall j | 0 <= j < i ensures Outcome(e, seed, s, calls, j).Err? {
        if Outcome(e, seed, s, calls, j).Ok? {
          StepSpends(e, seed, StateAfter(e, seed, s, calls[..j]), calls[j]);
          RunSplit(e, seed, s, calls, j);
          SpentForever(e, seed, s, calls, j + 1, i);
        }
      }
      forall j | i < j <= |calls| ensures StateAfter(e, seed, s, calls[..j]) == StateAfter(e, seed, s, calls[..i + 1]) {
        SpentForever(e, seed, s, calls, i + 1, j);
      }
    }
  }

  lemma {:induction false} KeyShown(e: Primitives, seed: nat, s: KeyState, calls: seq<SignCall>)
    requires e.d.Sound() && AllSignable(e, seed, calls)
    ensures StateAfter(e, seed, s, calls).publicKeyHex == s.publicKeyHex
    decreases |calls|
  {
    if calls != [] { KeyShown(e, seed, s, calls[..|calls| - 1]); }
  }

  // ----- a key for one signature -----

  /** The seed and method a key is made with, and what the clock says when it is made and when it
      signs. */
  datatype KeyUse = KeyUse(seed: Seed, measurement: string, madeAt: int, signedAt: string) {
    /** The commitment to the seed that the key records. */
    function Record(e: Primitives): SeedCommitment {
      SeedCommitment(seed.Hash(e), madeAt, measurement, madeAt, madeAt + DEFAULT_KEY_LIFETIME_SECONDS)
    }

    /** The seed fits 32 bytes, and the nonce loop ends if signing begins. */
    ghost predicate Ends(e: Primitives, message: Json)
      requires e.d.Sound()
    {
      seed.Value() < TWO_256 && (Record(e).Accepted() ==> Signable(e, seed.Value(), message))
    }

    /** What making the key and signing with it returns. */
    ghost function Sign(e: Primitives, message: Json): Result<Dict>
      requires e.d.Sound() && Ends(e, message)
    {
      if Record(e).Accepted() then SignedEnvelope(e, seed.Value(), message, signedAt, 1) else Err(BadSeedCommitment)
    }
  }

  /** What one signature of a fresh key is good for: it verifies, it says that it is the first, and it
      names the public key of the seed; and it is refused only for a seed commitment that is not
      accepted or where ECDSA signing raises. */
  lemma SignMeans(e: Primitives, k: KeyUse, message: Json)
    requires e.d.Sound() && k.Ends(e, message)
    ensures k.Sign(e, message).Ok?
            <==> k.Record(e).Accepted() && Ecdsa.Sign(e, DeriveKey(e, k.seed.Value()), MessageHash(e, message)).Ok?
    ensures PublicKey(e, k.seed.Value()).Affine? && 0 <= PublicKey(e, k.seed.Value()).x
    ensures k.Sign(e, message).Ok? ==>
              var envelope := k.Sign(e, message).value;
              && envelope.Obj? && envelope.fields != map[]
              && VerifyStatic(e, message, envelope)
              && envelope.Get("sign_count") == Some(Num(1))
              && envelope.Get("pubkey") == Some(Str(CompressKey(PublicKey(e, k.seed.Value()))))
  {
    hide VerifyStatic, CompressKey, PublicKey, DeriveKey, MessageHash, Ecdsa.Sign, Times, Associative, IsPrime;
    PublicKeyIsPoint(e, k.seed.Value());
    if k.Sign(e, message).Ok? {
      SignedManifestVerifies(e, k.seed.Value(), message, k.signedAt, 1);
      assert k.Sign(e, message).value.Get("pubkey").Some?;
    }
  }

  // ----- the key object -----

  class QuantumEphemeralKey {
    const seedCommitment: SeedCommitment
    const signer: EphemeralSigner
    var destroyed: bool
    var pubkeyHex: string

    ghost predicate Valid()
      reads this, signer, signer.privkeyBuf
    {
      && signer.Valid()
      && seedCommitment.Accepted()
      && destroyed == signer.destroyed
      && (destroyed ==> signer.pubkey.Affine? && 0 <= signer.pubkey.x && pubkeyHex == CompressKey(signer.pubkey))
    }

    /** The observable state. */
    ghost function State(): KeyState
      requires Valid()
      reads this, signer, signer.privkeyBuf
    {
      PublicKeyIsPoint(signer.e, signer.seed);
      KeyState(destroyed, signer.privkeyBuf[..], signer.signCount, CompressKey(PublicKey(signer.e, signer.seed)))
    }

    constructor (e: Primitives, seed: nat, c: SeedCommitment)
      requires e.d.Sound() && seed < TWO_256 && c.Accepted()
      ensures Valid() && fresh(signer) && fresh(signer.privkeyBuf)
      ensures signer.e == e && signer.seed == seed && seedCommitment == c
      ensures !destroyed && signer.signCount == 0
    {
      seedCommitment := c;
      signer := new EphemeralSigner(e, seed);
      destroyed, pubkeyHex := false, [];
    }

    /** `public_key_hex`: the same text before and after destruction. */
    method PublicKeyHex() returns (t: string)
      requires Valid()
      ensures t == State().publicKeyHex
    {
      if destroyed { return pubkeyHex; }
      var r := signer.PublicKeyHex();
      return r.value;
    }

    /** `sign`: one step of the state machine. */
    method Sign(message: Json, signedAt: string) returns (r: Result<Dict>)
      requires Valid() && Signable(signer.e, signer.seed, message)
      modifies this, signer`signCount, signer`destroyed, signer.privkeyBuf
      ensures Valid()
      ensures (State(), r) == KeyStep(signer.e, signer.seed, old(State()), SignCall(message, signedAt))
    {
      hide SignedEnvelope, PublicKey, CompressKey, DeriveKey, MessageHash, Stops;
      if destroyed { return Err(KeyDestroyed); }
      r := signer.SignManifest(message, signedAt);
      if r.Err? { return; }
      var key := signer.PublicKeyHex();
      pubkeyHex := key.value;
      var _ := signer.Destroy();
      destroyed := true;
      assert signer.privkeyBuf[..] == seq(|old(State()).buffer|, _ => 0);
    }
  }

  /** `QuantumEphemeralKey(quantum_seed, method, key_lifetime_seconds)`. */
  method NewKey(e: Primitives, seed: Seed, measurement: string, lifetime: int, now: int)
    returns (r: Result<QuantumEphemeralKey>)
    requires e.d.Sound() && seed.Value() < TWO_256
    ensures r.Ok? <==> CommitSeed(e, seed, measurement, lifetime, now).Ok?
    ensures r.Err? ==> r.error == BadSeedCommitment
    ensures r.Ok? ==>
              && fresh(r.value) && fresh(r.value.signer) && fresh(r.value.signer.privkeyBuf)
              && r.value.Valid() && !r.value.destroyed && r.value.signer.signCount == 0
              && r.value.signer.e == e && r.value.signer.seed == seed.Value()
              && Ok(r.value.seedCommitment) == CommitSeed(e, seed, measurement, lifetime, now)
  {
    var c := CommitSeed(e, seed, measurement, lifetime, now);
    if c.Err? { return Err(c.error); }
    var key := new QuantumEphemeralKey(e, seed.Value(), c.value);
    return Ok(key);
  }

  /** Signing with a key that a use describes and that has not signed yet. */
  method SignFresh(e: Primitives, k: KeyUse, key: QuantumEphemeralKey, message: Json) returns (r: Result<Dict>)
    requires key.Valid() && !key.destroyed && key.signer.signCount == 0
    requires key.signer.e == e && key.signer.seed == k.seed.Value()
    requires k.Ends(e, message) && k.Record(e).Accepted()
    modifies key, key.signer`signCount, key.signer`destroyed, key.signer.privkeyBuf
    ensures r == k.Sign(e, message)
  {
    hide SignedEnvelope, Signable, PublicKey, CompressKey, DeriveKey, Domain.Sound;
    r := key.Sign(message, k.signedAt);
  }

  /** Making a key for one signature and signing with it. */
  method SignWithFreshKey(e: Primitives, k: KeyUse, message: Json) returns (r: Result<Dict>)
    requires e.d.Sound() && k.Ends(e, message)
    ensures r == k.Sign(e, message)
  {
    hide SignedEnvelope, Signable, PublicKey, CompressKey, DeriveKey, Domain.Sound;
    var made := NewKey(e, k.seed, k.measurement, DEFAULT_KEY_LIFETIME_SECONDS, k.madeAt);
    if made.Err? { return Err(made.error); }
    r := SignFresh(e, k, made.value, message);
  }
}
