/** Concrete trades: the hypotheses of the results about trades can be met, and the trade whose seeds
    are not independent although it is certified. Hash and HMAC are as simple as can be here, over the
    small curve; no result needs more of them than the length of their values. */
module Witness {
  import opened Outcomes
  import opened Curve
  import opened Scalars
  import opened Bytes
  import opened Json
  import opened JsonText
  import opened Ecdsa
  import opened Signer
  import opened OneShot
  import opened Registry
  import opened AuditStore
  import opened TradeVerifier
  import opened HonestRun
  import opened SmallCurve
  import Commitment
  import Execution

  function OneByte(b: byte): seq<byte> {
    seq(31, _ => 0) + [b]
  }

  /** The last byte of what looks like a number of 32 bytes, and nothing of other texts. */
  function Digest(m: seq<byte>): seq<byte> {
    OneByte(if |m| == 32 && m[0] == 0 then m[31] else 0)
  }

  const SIMPLE := Primitives(SMALL, Digest, (k, m) => OneByte(1))

  lemma SimpleIsSound()
    ensures SIMPLE.Sound()
  {
    hide Domain.Sound;
    SmallIsSound();
  }

  lemma {:induction false} ZerosInFront(n: nat, b: byte)
    ensures FromBigEndian(seq(n, _ => 0) + [b]) == b
  {
    var all := seq(n, _ => 0) + [b];
    assert all[..n] == seq(n, _ => 0);
    Zeros(n);
  }

  lemma {:induction false} Zeros(n: nat)
    ensures FromBigEndian(seq(n, _ => 0)) == 0
  {
    if n > 0 {
      assert seq(n, _ => 0)[..n - 1] == seq(n - 1, _ => 0);
      Zeros(n - 1);
    }
  }

  /** Every key is 1, and so is every nonce. */
  lemma EveryKeyIsOne(seed: nat)
    ensures DeriveKey(SIMPLE, seed) == 1
  {
    ZerosInFront(31, 1);
  }

  lemma EveryNonceIsOne(priv: nat, h: seq<byte>)
    ensures Stops(SIMPLE, priv, h) && Nonce(SIMPLE, priv, h) == 1
  {
    ZerosInFront(31, 1);
    assert Candidate(SIMPLE, priv, h, 0) == 1;
    NonceIsFirst(SIMPLE, priv, h, 0);
  }

  lemma MessagesHashToZero(message: Json)
    ensures FromBigEndian(MessageHash(SIMPLE, message)) == 0
  {
    PrintPrintable(message);
    Utf8Ascii(Print(message));
    var text := Utf8(Print(message));
    assert |text| == 32 ==> text[0] != 0;
    ZerosInFront(31, 0);
  }

  /** Every message can be signed. */
  lemma EverythingSigns(k: KeyUse, message: Json)
    requires SIMPLE.d.Sound() && k.seed.Value() < TWO_256 && k.Record(SIMPLE).Accepted()
    ensures k.Ends(SIMPLE, message) && k.Sign(SIMPLE, message).Ok?
  {
    hide Domain.Sound, LadderMul, Times, Plus, FromBigEndian, DeriveKey, MessageHash, Stops, Nonce, SignedEnvelope;
    EveryKeyIsOne(k.seed.Value());
    EveryNonceIsOne(1, MessageHash(SIMPLE, message));
    MessagesHashToZero(message);
    TimesOne(31, SMALL.G());
    SigningFailsOnZero(SMALL, 1, 0, 1);
    SignMeans(SIMPLE, k, message);
  }

  // ----- two trades -----

  function SimpleKey(n: nat): KeyUse {
    KeyUse(IntSeed(n), "CSPRNG", 1, "now")
  }

  function SimpleHash(n: nat): string {
    SimpleKey(n).seed.Hash(SIMPLE)
  }

  lemma HashOfKey(n: nat)
    ensures SimpleHash(n) == SimpleKey(n).seed.Hash(SIMPLE)
  {
  }

  lemma {:induction false} ZeroOctets(len: nat)
    ensures ToBigEndian(0, len) == seq(len, _ => 0)
  {
    if len > 0 {
      ZeroOctets(len - 1);
      assert seq(len, _ => 0) == seq(len - 1, _ => 0) + [0];
    }
  }

  lemma SimpleHashIs(n: nat)
    requires n < 256
    ensures SimpleHash(n) == HexOfBytes(OneByte(n)) && |SimpleHash(n)| == 64
  {
    ZeroOctets(31);
    assert ToBigEndian(n, 32) == ToBigEndian(0, 31) + [n];
  }

  lemma HashesDiffer(m: nat, n: nat)
    requires m < 256 && n < 256 && m != n
    ensures SimpleHash(m) != SimpleHash(n)
  {
    hide HexOfBytes, SimpleHash;
    SimpleHashIs(m);
    SimpleHashIs(n);
    assert OneByte(m)[31] == m && OneByte(n)[31] == n;
    if SimpleHash(m) == SimpleHash(n) { HexOfBytesInjective(OneByte(m), OneByte(n)); }
  }

  const DETAILS: Dict := Obj(map["symbol" := Str("X"), "side" := Str("long"), "qty" := Num(1), "price" := Num(1)])

  function Snapshot(nonce: int): Commitment.AccountSnapshot {
    Commitment.AccountSnapshot(0, 0, [], 0, 0, nonce, 0)
  }

  /** A trade of one unit at the agreed price: its commitment, execution and broker use the seeds 1, 2
      and 4, its settlement the given seed, and is told the given hash for the commitment. */
  function SimplePlan(settleSeed: nat, claimedCommit: string): Plan {
    Plan("A", DETAILS, Snapshot(0), None, Execution.ExecutionResult("A", "X", "long", 1, 1, 0, Obj(map[])),
         Snapshot(1), "ack", 0, 0, SimpleKey(1), SimpleKey(2), SimpleKey(4), SimpleKey(settleSeed),
         claimedCommit, SimpleHash(2))
  }

  lemma SimplePlanMade(settleSeed: nat, claimedCommit: string) returns (g: Signed)
    requires settleSeed < 256
    ensures Made(SIMPLE, SimplePlan(settleSeed, claimedCommit), g)
  {
    hide SimpleKey, SimpleHash, Domain.Sound, SignedBy;
    hide Plan.CommitmentPayload, Plan.ExecutionPayload, Plan.BrokerPayload, Plan.SettlementPayload;
    SimpleIsSound();
    var p := SimplePlan(settleSeed, claimedCommit);
    var c := SimplySigned(1, p.CommitmentPayload(SIMPLE));
    var x := SimplySigned(2, p.ExecutionPayload(SIMPLE, c));
    var b := SimplySigned(4, p.BrokerPayload(c, x));
    var s := SimplySigned(settleSeed, p.SettlementPayload(SIMPLE, c, x, b));
    g := Signed(c, x, b, s);
  }

  lemma SimplySigned(n: nat, message: Json) returns (envelope: Dict)
    requires n < 256
    ensures SignedBy(SIMPLE, SimpleKey(n), message, envelope)
  {
    hide KeyUse.Sign, KeyUse.Ends, HexOfBytes, Domain.Sound;
    SimpleIsSound();
    SimpleHashIs(n);
    EverythingSigns(SimpleKey(n), message);
    envelope := SimpleKey(n).Sign(SIMPLE, message).value;
  }

  /** The table with the one public key there is, for the scope "A" and its broker. */
  function SimpleTable(): Table {
    var key := CompressKey(SMALL.G());
    map["A" := {key}, BrokerScope("A") := {key}]
  }

  lemma SimplyRegistered(n: nat)
    requires SIMPLE.d.Sound()
    ensures Authorised(SIMPLE, SimpleTable(), "A", SimpleKey(n).seed)
    ensures Authorised(SIMPLE, SimpleTable(), BrokerScope("A"), SimpleKey(n).seed)
  {
    hide CompressKey, Times, DeriveKey, Domain.Sound;
    EveryKeyIsOne(n);
    TimesOne(31, SMALL.G());
    CompressedIsPubkey(SMALL.G());
    assert PublicKey(SIMPLE, n) == SMALL.G();
  }

  lemma SimplyProper(settleSeed: nat, claimedCommit: string)
    requires SIMPLE.d.Sound()
    requires settleSeed < 256 && settleSeed != 2
    requires claimedCommit != SimpleHash(2) && claimedCommit != SimpleHash(settleSeed)
    ensures Proper(SIMPLE, SimpleTable(), "A", SimplePlan(settleSeed, claimedCommit))
  {
    hide HexOfBytes, Authorised, Domain.Sound, SimpleTable;
    var p := SimplePlan(settleSeed, claimedCommit);
    SimplyRegistered(1);
    SimplyRegistered(2);
    SimplyRegistered(4);
    SimplyRegistered(settleSeed);
    HashesDiffer(1, 2);
    HashesDiffer(2, settleSeed);
    FillKept();
  }

  lemma FillKept()
    ensures Execution.MatchesTerms(DETAILS, SimplePlan(3, "").fill.ToJson())
  {
    Execution.TermsMeaning(DETAILS, SimplePlan(3, "").fill.ToJson());
  }

  /** The records of a trade. */
  function FlowOf(p: Plan, g: Signed): Flow {
    Flow(Some(PhaseRecord(p.CommitmentPayload(SIMPLE), g.commitment, Obj(map[]))),
         Some(PhaseRecord(p.ExecutionPayload(SIMPLE, g.commitment), g.execution, Obj(map[]))),
         Some(PhaseRecord(p.SettlementPayload(SIMPLE, g.commitment, g.execution, g.broker), g.settlement, Obj(map[]))))
  }

  lemma FlowRecords(p: Plan, g: Signed)
    ensures Records(SIMPLE, FlowOf(p, g), p, g) && AllPresent(FlowOf(p, g))
  {
    hide Plan.CommitmentPayload, Plan.ExecutionPayload, Plan.SettlementPayload;
  }

  /** There is an honest trade, and it is certified. */
  lemma HonestTradeExists() returns (p: Plan, g: Signed)
    ensures Made(SIMPLE, p, g) && Honest(SIMPLE, SimpleTable(), "A", p)
    ensures p.orderId != [] && p.fill.orderId == p.orderId
    ensures ChainValid(SIMPLE, Some(SimpleTable()), "A", FlowOf(p, g))
  {
    hide Made, Proper, Domain.Sound, ChainValid, FlowOf, Records, SimpleHash, SeedsIndependent, SimpleTable;
    hide Commitment.Payload, Execution.Attestation, HexOfBytes;
    SimpleIsSound();
    HashesDiffer(1, 2);
    HashesDiffer(1, 3);
    assert SimpleHash(1) == SimpleKey(1).seed.Hash(SIMPLE) by { HashOfKey(1); }
    assert SimpleHash(2) == SimpleKey(2).seed.Hash(SIMPLE) by { HashOfKey(2); }
    SimplyProper(3, SimpleHash(1));
    p := SimplePlan(3, SimpleHash(1));
    g := SimplePlanMade(3, SimpleHash(1));
    FlowRecords(p, g);
    HonestSeedsIndependent(SIMPLE, SimpleTable(), "A", FlowOf(p, g), p, g);
  }

  /** There is a trade that reuses the seed of its commitment for its settlement and is certified. */
  lemma SeedReuseExists() returns (p: Plan, g: Signed)
    ensures Made(SIMPLE, p, g) && p.settleKey.seed == p.commitKey.seed
    ensures ChainValid(SIMPLE, Some(SimpleTable()), "A", FlowOf(p, g)) && !SeedsIndependent(FlowOf(p, g))
  {
    hide Made, Proper, Domain.Sound, ChainValid, FlowOf, Records, SimpleHash, SeedsIndependent, SimpleTable;
    SimpleIsSound();
    HashesDiffer(1, 3);
    HashesDiffer(2, 3);
    SimplyProper(1, SimpleHash(3));
    p := SimplePlan(1, SimpleHash(3));
    g := SimplePlanMade(1, SimpleHash(3));
    FlowRecords(p, g);
    SeedReuseCertified(SIMPLE, SimpleTable(), "A", FlowOf(p, g), p, g);
  }
}
