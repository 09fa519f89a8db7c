/** A commit, execute and settle run, from key derivation through the log to the verdict, and exactly
    when such a run is certified. */
module HonestRun {
  import opened Outcomes
  import opened Curve
  import opened Scalars
  import opened Bytes
  import opened Json
  import opened PyValues
  import opened Ecdsa
  import opened Signer
  import opened OneShot
  import opened Registry
  import opened AuditStore
  import opened TradeVerifier
  import Commitment
  import Execution
  import Settlement

  /** Everything the participants of one trade choose, and what their clocks say. The settlement is told
      the seed hashes of the other two phases: these are arguments, not read from the phases. */
  datatype Plan = Plan(
    orderId: string, tradeDetails: Dict, before: Commitment.AccountSnapshot, reasoningHash: Option<string>,
    fill: Execution.ExecutionResult, after: Commitment.AccountSnapshot, ack: string,
    committedAt: int, settledAt: int,
    commitKey: KeyUse, executeKey: KeyUse, brokerKey: KeyUse, settleKey: KeyUse,
    claimedCommit: string, claimedExecute: string)
  {
    function CommitmentPayload(e: Primitives): Dict {
      Commitment.Payload(e, orderId, tradeDetails, before, commitKey.Record(e), reasoningHash, committedAt)
    }

    function ExecutionPayload(e: Primitives, commitment: Json): Dict {
      Execution.Attestation(e, commitment, commitKey.Record(e).seedHash, fill.ToJson(), after, executeKey.Record(e))
    }

    function BrokerPayload(commitment: Json, execution: Json): Dict {
      Settlement.BrokerAttestation(Str(orderId), commitment, execution, Str(ack))
    }

    function SettlementPayload(e: Primitives, commitment: Json, execution: Json, broker: Json): Dict {
      Settlement.Payload(e, orderId, commitment, claimedCommit, commitKey.Record(e).Window(),
                         execution, claimedExecute, executeKey.Record(e).Window(), ack, broker, settledAt,
                         settleKey.Record(e))
    }
  }

  /** The four envelopes of a trade. */
  datatype Signed = Signed(commitment: Dict, execution: Dict, broker: Dict, settlement: Dict)

  /** The nonce loop of each signature that is begun ends. */
  ghost predicate LoopsEnd(e: Primitives, p: Plan)
    requires e.d.Sound()
  {
    p.commitKey.Ends(e, p.CommitmentPayload(e))
    && match p.commitKey.Sign(e, p.CommitmentPayload(e))
       case Err(_) => true
       case Ok(c) => LaterLoopsEnd(e, p, c)
  }

  ghost predicate LaterLoopsEnd(e: Primitives, p: Plan, c: Json)
    requires e.d.Sound()
  {
    p.executeKey.Ends(e, p.ExecutionPayload(e, c))
    && match p.executeKey.Sign(e, p.ExecutionPayload(e, c))
       case Err(_) => true
       case Ok(x) =>
         p.brokerKey.Ends(e, p.BrokerPayload(c, x))
         && match p.brokerKey.Sign(e, p.BrokerPayload(c, x))
            case Err(_) => true
            case Ok(b) => p.settleKey.Ends(e, p.SettlementPayload(e, c, x, b))
  }

  /** What signing the three phases and the broker's attestation one after the other returns. */
  ghost function SignAll(e: Primitives, p: Plan): Result<Signed>
    requires e.d.Sound() && LoopsEnd(e, p)
  {
    var c :- p.commitKey.Sign(e, p.CommitmentPayload(e));
    var x :- p.executeKey.Sign(e, p.ExecutionPayload(e, c));
    var b :- p.brokerKey.Sign(e, p.BrokerPayload(c, x));
    var s :- p.settleKey.Sign(e, p.SettlementPayload(e, c, x, b));
    Ok(Signed(c, x, b, s))
  }

  /** An envelope that a fresh key made. */
  ghost predicate SignedBy(e: Primitives, k: KeyUse, message: Json, envelope: Json) {
    e.d.Sound() && k.Ends(e, message) && k.Sign(e, message) == Ok(envelope)
  }

  /** The trade was signed as planned. */
  ghost predicate Made(e: Primitives, p: Plan, g: Signed) {
    && e.Sound()
    && SignedBy(e, p.commitKey, p.CommitmentPayload(e), g.commitment)
    && SignedBy(e, p.executeKey, p.ExecutionPayload(e, g.commitment), g.execution)
    && SignedBy(e, p.brokerKey, p.BrokerPayload(g.commitment, g.execution), g.broker)
    && SignedBy(e, p.settleKey, p.SettlementPayload(e, g.commitment, g.execution, g.broker), g.settlement)
  }

  lemma SignAllIsMade(e: Primitives, p: Plan, g: Signed)
    requires e.Sound() && LoopsEnd(e, p) && SignAll(e, p) == Ok(g)
    ensures Made(e, p, g)
  {
    hide KeyUse.Sign, KeyUse.Ends, Commitment.Payload, Execution.Attestation, Settlement.Payload;
    hide Settlement.BrokerAttestation, Domain.Sound;
  }

  // ----- when a trade is certified -----

  ghost predicate Authorised(e: Primitives, t: Table, scope: string, seed: Seed)
    requires e.d.Sound()
  {
    PublicKeyIsPoint(e, seed.Value());
    Authorized(t, scope, CompressKey(PublicKey(e, seed.Value())))
  }

  /** The account's three keys and the broker's are registered for the scope. */
  ghost predicate AllRegistered(e: Primitives, t: Table, scope: string, p: Plan)
    requires e.d.Sound()
  {
    && Authorised(e, t, scope, p.commitKey.seed)
    && Authorised(e, t, scope, p.executeKey.seed)
    && Authorised(e, t, scope, p.settleKey.seed)
    && Authorised(e, t, BrokerScope(scope), p.brokerKey.seed)
  }

  /** No time in the window is zero, which the checks take for missing. */
  predicate ClockSet(k: KeyUse) {
    k.madeAt + DEFAULT_KEY_LIFETIME_SECONDS != 0 && k.madeAt + SHOR_EARLIEST_ATTACK_SECONDS != 0
  }

  predicate ClocksSet(p: Plan) {
    p.commitKey.madeAt != 0 && ClockSet(p.commitKey) && ClockSet(p.executeKey) && ClockSet(p.settleKey)
  }

  /** The hashes that the settlement is told, and its own, are three different ones. */
  predicate ClaimsDiffer(e: Primitives, p: Plan) {
    var own := p.settleKey.seed.Hash(e);
    p.claimedCommit != p.claimedExecute && p.claimedCommit != own && p.claimedExecute != own
  }

  /** Commitment and execution have different seeds, the nonce is the next one and the fill is within
      the terms. */
  predicate TermsKept(e: Primitives, p: Plan) {
    && p.commitKey.seed.Hash(e) != p.executeKey.seed.Hash(e)
    && p.after.nonce == p.before.nonce + 1
    && Execution.MatchesTerms(p.tradeDetails, p.fill.ToJson())
  }

  /** What decides about a trade that was signed as planned. */
  ghost predicate Proper(e: Primitives, t: Table, scope: string, p: Plan)
    requires e.d.Sound()
  {
    AllRegistered(e, t, scope, p) && TermsKept(e, p) && ClaimsDiffer(e, p) && ClocksSet(p)
  }

  /** A proper trade whose settlement is told the truth. */
  ghost predicate Honest(e: Primitives, t: Table, scope: string, p: Plan)
    requires e.d.Sound()
  {
    && Proper(e, t, scope, p)
    && p.claimedCommit == p.commitKey.seed.Hash(e) && p.claimedExecute == p.executeKey.seed.Hash(e)
  }

  // ----- envelopes -----

  /** What the verifiers find in an envelope that a fresh key made. */
  lemma EnvelopeGood(e: Primitives, t: Table, scope: string, k: KeyUse, message: Json, envelope: Json)
    requires SignedBy(e, k, message, envelope)
    ensures envelope.Obj? && Truthy(envelope) && VerifyStatic(e, message, envelope) && k.Record(e).Accepted()
    ensures KeyAuthorized(t, scope, GetOr(envelope, "pubkey", Str(""))) == Ok(Authorised(e, t, scope, k.seed))
    ensures IdentityOk(Some(t), scope, envelope) == Ok(Authorised(e, t, scope, k.seed))
  {
    hide VerifyStatic, PublicKey, SignedEnvelope, Signable, Authorized, Associative, Times;
    SignMeans(e, k, message);
    assert |CompressKey(PublicKey(e, k.seed.Value()))| == 66;
    if scope == [] { NobodyAuthorised(t, CompressKey(PublicKey(e, k.seed.Value()))); }
  }

  lemma NobodyAuthorised(t: Table, key: string)
    ensures !Authorized(t, [], key)
  {
  }

  /** A derived public key is always in the form that the registry accepts. */
  lemma DerivedKeyRegisters(e: Primitives, account: string, seed: nat)
    requires e.d.Sound() && account != []
    ensures PublicKey(e, seed).Affine? && 0 <= PublicKey(e, seed).x
    ensures CanRegister(account, CompressKey(PublicKey(e, seed)))
  {
    PublicKeyIsPoint(e, seed);
    CompressedIsPubkey(PublicKey(e, seed));
  }

  lemma CompressedIsPubkey(a: Point)
    requires a.Affine? && 0 <= a.x
    ensures IsPubkey(CompressKey(a)) && Lower(CompressKey(a)) == CompressKey(a)
  {
    var first: seq<byte>, x := [if a.y % 2 == 0 then 2 else 3], ToBigEndian(a.x, 32);
    HexOfBytesConcat(first, x);
    var k := CompressKey(a);
    assert k == HexOfBytes(first) + HexOfBytes(x);
    assert HexOfBytes(first) == [HexDigit(0), HexDigit(first[0])] by { assert first[..0] == []; }
    assert forall i :: 0 <= i < |k| ==> PlainHex(k[i]);
  }

  // ----- the commitment -----

  lemma CommitmentReads(e: Primitives, p: Plan)
    ensures var data := p.CommitmentPayload(e);
            && GetOr(data, "account_state_hash", Str("")) == Str(p.before.Hash(e))
            && data.Get("nonce") == Some(Num(p.before.nonce))
            && GetOr(data, "quantum_seed_commitment", Str("")) == Str(p.commitKey.seed.Hash(e))
            && GetOr(data, "key_temporal_window", Obj(map[])) == p.commitKey.Record(e).Window()
            && GetOr(data, "trade_details", Obj(map[])) == p.tradeDetails
  {
    hide HexOfBytes, Print, Utf8;
  }

  lemma CommitmentTells(e: Primitives, p: Plan)
    ensures var data := p.CommitmentPayload(e);
            && data.Get("order_id") == Some(Str(p.orderId))
            && data.Get("seed_measurement_method") == Some(Str(p.commitKey.measurement))
  {
    hide HexOfBytes, Print, Utf8;
  }

  lemma StateHashLength(e: Primitives, state: Commitment.AccountSnapshot)
    requires e.Valid()
    ensures |state.Hash(e)| == 64
  {
  }

  /** What the two window checks say of the window of an accepted key. */
  lemma WindowReads(c: SeedCommitment, k: KeyUse)
    requires c.createdAt == k.madeAt && c.expiresAt == k.madeAt + DEFAULT_KEY_LIFETIME_SECONDS
    ensures Settlement.WindowSafe(c.Window()) == Ok(ClockSet(k))
    ensures c.Window().Get("created_at") == Some(Num(k.madeAt))
    ensures c.Window().Get("expires_at") == Some(Num(k.madeAt + DEFAULT_KEY_LIFETIME_SECONDS))
    ensures c.Window().Get("shor_earliest_attack") == Some(Num(k.madeAt + SHOR_EARLIEST_ATTACK_SECONDS))
  {
  }

  lemma CommitmentFields(e: Primitives, p: Plan)
    requires e.Valid() && p.commitKey.Record(e).Accepted()
    ensures var data := p.CommitmentPayload(e);
            && Commitment.StateBinding(data)
            && Commitment.QuantumBinding(data) == Ok(true)
            && Commitment.TemporalSafety(data) == Ok(p.commitKey.madeAt != 0 && ClockSet(p.commitKey))
  {
    hide HexOfBytes, Print, Utf8, Commitment.Payload, SeedCommitment.Window;
    CommitmentReads(e, p);
    CommitmentTells(e, p);
    StateHashLength(e, p.before);
    WindowReads(p.commitKey.Record(e), p.commitKey);
  }

  ghost predicate CommitmentProper(e: Primitives, t: Table, scope: string, p: Plan)
    requires e.d.Sound()
  {
    Authorised(e, t, scope, p.commitKey.seed) && p.commitKey.madeAt != 0 && ClockSet(p.commitKey)
  }

  lemma CommitmentAccepted(e: Primitives, t: Table, scope: string, p: Plan, g: Signed, c: PhaseRecord)
    requires Made(e, p, g) && c.data == p.CommitmentPayload(e) && c.signature == g.commitment
    ensures !Raises(CommitmentChecks(e, Some(t), scope, c))
    ensures Holds(CommitmentChecks(e, Some(t), scope, c)) <==> CommitmentProper(e, t, scope, p)
  {
    hide VerifyStatic, IdentityOk, Holds, Raises, Authorised, KeyAuthorized, ClockSet;
    hide Commitment.StateBinding, Commitment.QuantumBinding, Commitment.TemporalSafety, KeyUse.Sign, KeyUse.Ends;
    EnvelopeGood(e, t, scope, p.commitKey, c.data, c.signature);
    CommitmentFields(e, p);
    FiveChecks(Ok(true), Ok(true), Ok(true), Commitment.TemporalSafety(c.data), IdentityOk(Some(t), scope, c.signature));
  }

  // ----- the execution -----

  lemma ExecutionReads(e: Primitives, p: Plan, commitment: Json)
    ensures var data := p.ExecutionPayload(e, commitment);
            && GetOr(data, "commitment_sig", Null) == commitment
            && GetOr(data, "nonce_after", Null) == Num(p.after.nonce)
            && GetOr(data, "execution_quantum_seed_commitment", Str("")) == Str(p.executeKey.seed.Hash(e))
            && GetOr(data, "key_temporal_window", Obj(map[])) == p.executeKey.Record(e).Window()
            && data.Get("execution_result") == Some(p.fill.ToJson())
            && data.Get("seed_measurement_method") == None
  {
    hide HexOfBytes, Print, Utf8;
  }

  lemma ExecutionFields(e: Primitives, p: Plan, commitment: Json)
    requires p.executeKey.Record(e).Accepted()
    ensures var data := p.ExecutionPayload(e, commitment);
            && Execution.QuantumBinding(data) == Ok(true)
            && Execution.TemporalSafety(data) == Ok(ClockSet(p.executeKey))
  {
    hide HexOfBytes, Print, Utf8, Execution.Attestation, SeedCommitment.Window;
    ExecutionReads(e, p, commitment);
    WindowReads(p.executeKey.Record(e), p.executeKey);
  }

  lemma LinkAccepted(e: Primitives, p: Plan, c: PhaseRecord, x: PhaseRecord)
    requires c.data == p.CommitmentPayload(e) && x.data == p.ExecutionPayload(e, c.signature)
    ensures !Raises(LinkChecks(c, x, 0))
    ensures Holds(LinkChecks(c, x, 0)) <==> TermsKept(e, p)
  {
    hide Execution.MatchesTerms, Commitment.Payload, Execution.Attestation, Holds, Raises;
    CommitmentReads(e, p);
    ExecutionReads(e, p, c.signature);
    var checks := LinkChecks(c, x, 0);
    FourChecks(checks[0], checks[1], checks[2], checks[3]);
    assert checks == [checks[0], checks[1], checks[2], checks[3]];
  }

  ghost predicate ExecutionProper(e: Primitives, t: Table, scope: string, p: Plan)
    requires e.d.Sound()
  {
    Authorised(e, t, scope, p.executeKey.seed) && ClockSet(p.executeKey)
  }

  lemma ExecutionAccepted(
    e: Primitives, t: Table, scope: string, p: Plan, g: Signed, c: Option<PhaseRecord>, x: PhaseRecord)
    requires Made(e, p, g)
    requires c.Some? ==> c.value.data == p.CommitmentPayload(e) && c.value.signature == g.commitment
    requires x.data == p.ExecutionPayload(e, g.commitment) && x.signature == g.execution
    ensures !Raises(ExecutionChecks(e, Some(t), scope, c, x))
    ensures Holds(ExecutionChecks(e, Some(t), scope, c, x))
            <==> ExecutionProper(e, t, scope, p) && (c.Some? ==> TermsKept(e, p))
  {
    hide VerifyStatic, IdentityOk, LinkChecks, Holds, Raises, Execution.QuantumBinding, Execution.TemporalSafety;
    hide Authorised, KeyAuthorized, ClockSet, TermsKept, KeyUse.Sign, KeyUse.Ends;
    EnvelopeGood(e, t, scope, p.executeKey, x.data, x.signature);
    ExecutionFields(e, p, g.commitment);
    var temporal, identity := Execution.TemporalSafety(x.data), IdentityOk(Some(t), scope, x.signature);
    var link := if c.Some? then LinkChecks(c.value, x, 0) else [];
    if c.Some? { LinkAccepted(e, p, c.value, x); }
    NothingAsked();
    FourChecks(Ok(true), Ok(true), temporal, identity);
    BothLists([Ok(true), Ok(true), temporal, identity], link);
  }

  // ----- the settlement -----

  /** The fields of a settlement that link it to the rest. */
  lemma SettlementLinks(e: Primitives, p: Plan, c: Json, x: Json, b: Json)
    ensures var data := p.SettlementPayload(e, c, x, b);
            && GetOr(data, "commitment_sig", Null) == c
            && GetOr(data, "execution_sig", Null) == x
            && GetOr(data, "broker_settlement_sig", Str("")) == Str(p.ack)
            && GetOr(data, "broker_signature", Null) == b
            && data.Get("order_id") == Some(Str(p.orderId))
            && data.Get("flow_merkle_hash") == Some(Str(Settlement.FlowMerkle(e, c, x, p.ack, b)))
            && data.Get("seed_measurement_method") == None
  {
    hide Settlement.FlowMerkle, HexOfBytes;
  }

  lemma SettlementWindows(e: Primitives, p: Plan, c: Json, x: Json, b: Json)
    ensures var data := p.SettlementPayload(e, c, x, b);
            && GetOr(data, "commitment_temporal_window", Obj(map[])) == p.commitKey.Record(e).Window()
            && GetOr(data, "execution_temporal_window", Obj(map[])) == p.executeKey.Record(e).Window()
            && GetOr(data, "settlement_temporal_window", Obj(map[])) == p.settleKey.Record(e).Window()
  {
    hide Settlement.FlowMerkle, HexOfBytes;
  }

  lemma SettlementSeeds(e: Primitives, p: Plan, c: Json, x: Json, b: Json)
    ensures var data := p.SettlementPayload(e, c, x, b);
            && data.Get("commitment_quantum_seed_commitment") == Some(Str(p.claimedCommit))
            && data.Get("execution_quantum_seed_commitment") == Some(Str(p.claimedExecute))
            && data.Get("settlement_quantum_seed_commitment") == Some(Str(p.settleKey.seed.Hash(e)))
  {
    hide Settlement.FlowMerkle, HexOfBytes;
  }

  lemma SeedsRead(e: Primitives, p: Plan, c: Json, x: Json, b: Json)
    ensures Settlement.AllSeedsIndependent(p.SettlementPayload(e, c, x, b)) == Ok(ClaimsDiffer(e, p))
  {
    hide Settlement.Payload, HexOfBytes;
    SettlementSeeds(e, p, c, x, b);
  }

  lemma WindowsRead(e: Primitives, p: Plan, c: Json, x: Json, b: Json)
    ensures Settlement.AllWindows(p.SettlementPayload(e, c, x, b))
         == Ok(ClockSet(p.commitKey) && ClockSet(p.executeKey) && ClockSet(p.settleKey))
  {
    hide Settlement.WindowSafe, Settlement.Payload, SeedCommitment.Window, ClockSet;
    SettlementWindows(e, p, c, x, b);
    WindowReads(p.commitKey.Record(e), p.commitKey);
    WindowReads(p.executeKey.Record(e), p.executeKey);
    WindowReads(p.settleKey.Record(e), p.settleKey);
  }

  /** A settlement made from the envelopes of the earlier phases passes the chain check. */
  lemma ChainAccepted(e: Primitives, p: Plan, g: Signed)
    requires Made(e, p, g)
    ensures Settlement.Chain(e, g.commitment, g.execution,
                             p.SettlementPayload(e, g.commitment, g.execution, g.broker)) == Ok(true)
  {
    hide VerifyStatic, Settlement.FlowMerkle, Settlement.Payload, KeyUse.Sign, KeyUse.Ends, Authorised, KeyAuthorized;
    SettlementLinks(e, p, g.commitment, g.execution, g.broker);
    EnvelopeGood(e, map[], [], p.brokerKey, p.BrokerPayload(g.commitment, g.execution), g.broker);
  }

  lemma BrokerReads(e: Primitives, t: Table, scope: string, p: Plan, g: Signed)
    requires Made(e, p, g)
    ensures BrokerOk(Some(t), scope, p.SettlementPayload(e, g.commitment, g.execution, g.broker))
         == Ok(Authorised(e, t, BrokerScope(scope), p.brokerKey.seed))
  {
    hide VerifyStatic, Settlement.FlowMerkle, Settlement.Payload, KeyUse.Sign, KeyUse.Ends, Authorised, KeyAuthorized;
    SettlementLinks(e, p, g.commitment, g.execution, g.broker);
    EnvelopeGood(e, t, BrokerScope(scope), p.brokerKey, p.BrokerPayload(g.commitment, g.execution), g.broker);
  }

  ghost predicate SettlementProper(e: Primitives, t: Table, scope: string, p: Plan)
    requires e.d.Sound()
  {
    && Authorised(e, t, scope, p.settleKey.seed) && Authorised(e, t, BrokerScope(scope), p.brokerKey.seed)
    && ClaimsDiffer(e, p)
    && ClockSet(p.commitKey) && ClockSet(p.executeKey) && ClockSet(p.settleKey)
  }

  lemma SettlementAccepted(e: Primitives, t: Table, scope: string, p: Plan, g: Signed,
                           c: Option<PhaseRecord>, x: Option<PhaseRecord>, s: PhaseRecord)
    requires Made(e, p, g)
    requires c.Some? ==> c.value.signature == g.commitment
    requires x.Some? ==> x.value.signature == g.execution
    requires s.data == p.SettlementPayload(e, g.commitment, g.execution, g.broker) && s.signature == g.settlement
    ensures !Raises(SettlementChecks(e, Some(t), scope, c, x, s))
    ensures Holds(SettlementChecks(e, Some(t), scope, c, x, s)) <==> SettlementProper(e, t, scope, p)
  {
    hide VerifyStatic, IdentityOk, BrokerOk, Holds, Raises, Settlement.Chain, Settlement.AllSeedsIndependent;
    hide Settlement.AllWindows, Settlement.Payload, KeyUse.Sign, KeyUse.Ends;
    hide Authorised, KeyAuthorized, ClockSet, ClaimsDiffer;
    EnvelopeGood(e, t, scope, p.settleKey, s.data, s.signature);
    BrokerReads(e, t, scope, p, g);
    SeedsRead(e, p, g.commitment, g.execution, g.broker);
    WindowsRead(e, p, g.commitment, g.execution, g.broker);
    ChainAccepted(e, p, g);
    SettlementList(Ok(true), IdentityOk(Some(t), scope, s.signature), BrokerOk(Some(t), scope, s.data), Ok(true),
                   c.Some? && x.Some?, Settlement.AllSeedsIndependent(s.data), Settlement.AllWindows(s.data));
  }

  // ----- the verdict -----

  /** The phases of the flow that are present are those of the trade. */
  ghost predicate Records(e: Primitives, flow: Flow, p: Plan, g: Signed) {
    && (flow.commitment.Some? ==>
          flow.commitment.value.data == p.CommitmentPayload(e) && flow.commitment.value.signature == g.commitment)
    && (flow.execution.Some? ==>
          && flow.execution.value.data == p.ExecutionPayload(e, g.commitment)
          && flow.execution.value.signature == g.execution)
    && (flow.settlement.Some? ==>
          && flow.settlement.value.data == p.SettlementPayload(e, g.commitment, g.execution, g.broker)
          && flow.settlement.value.signature == g.settlement)
  }

  lemma ProperParts(e: Primitives, t: Table, scope: string, p: Plan)
    requires e.d.Sound()
    ensures Proper(e, t, scope, p)
            <==> && CommitmentProper(e, t, scope, p) && ExecutionProper(e, t, scope, p) && TermsKept(e, p)
                 && SettlementProper(e, t, scope, p)
  {
    hide Authorised, ClockSet, TermsKept, ClaimsDiffer;
  }

  /** Exactly when a trade made by the three `create_and_sign` is certified. The verifiers return for
      every such trade, with whatever phases of it the log still has. The flow is certified if and
      only if all three are there and the trade is proper: the four keys registered, the nonce the
      next one, the fill within the terms, the seeds and the claimed seeds different, no clock at
      zero. With all three there, no tampering is reported if and only if the trade is proper. */
  lemma MadeTradeCertifiedIff(e: Primitives, t: Table, scope: string, flow: Flow, p: Plan, g: Signed)
    requires Made(e, p, g) && Records(e, flow, p, g)
    ensures Completes(e, Some(t), scope, flow)
    ensures ChainValid(e, Some(t), scope, flow) <==> AllPresent(flow) && Proper(e, t, scope, p)
    ensures AllPresent(flow) ==> (Issues(FlowTests(e, Some(t), scope, flow)) == [] <==> Proper(e, t, scope, p))
  {
    hide CommitmentChecks, ExecutionChecks, SettlementChecks, Holds, Raises, Issues, FlowTests, Made, Proper;
    hide CommitmentProper, ExecutionProper, SettlementProper, TermsKept;
    hide Commitment.Payload, Execution.Attestation, Settlement.Payload;
    assert e.d.Sound() by { MadeIsSound(e, p, g); }
    ProperParts(e, t, scope, p);
    if flow.commitment.Some? { CommitmentAccepted(e, t, scope, p, g, flow.commitment.value); }
    if flow.execution.Some? { ExecutionAccepted(e, t, scope, p, g, flow.commitment, flow.execution.value); }
    if flow.settlement.Some? {
      SettlementAccepted(e, t, scope, p, g, flow.commitment, flow.execution, flow.settlement.value);
    }
    VerifiersAgree(e, Some(t), scope, flow);
    if AllPresent(flow) && Issues(FlowTests(e, Some(t), scope, flow)) == [] {
      QuietSettlement(e, Some(t), scope, flow);
      QuietWindow(e, t, scope, p, g);
    }
  }

  lemma MadeIsSound(e: Primitives, p: Plan, g: Signed)
    requires Made(e, p, g)
    ensures e.Sound()
  {
  }

  /** With no issue reported, the settlement passes its checks. */
  lemma QuietSettlement(e: Primitives, t: Option<Table>, scope: string, flow: Flow)
    requires e.d.Sound() && AllPresent(flow) && Issues(FlowTests(e, t, scope, flow)) == []
    ensures Holds(SettlementChecks(e, t, scope, flow.commitment, flow.execution, flow.settlement.value))
  {
    hide CommitmentTests, ExecutionTests, SettlementTests, SettlementChecks, Holds, Issues, OutcomesOf;
    var c, x, s := flow.commitment, flow.execution, flow.settlement.value;
    NoIssues(FlowTests(e, t, scope, flow));
    HoldsConcat(CommitmentTests(e, t, scope, c.value) + ExecutionTests(e, t, scope, c, x.value),
                SettlementTests(e, t, scope, c, x, s));
    SettlementAgrees(e, t, scope, c.value, x.value, s);
  }

  /** The window of the execution key is among those that the settlement states. */
  lemma QuietWindow(e: Primitives, t: Table, scope: string, p: Plan, g: Signed)
    requires Made(e, p, g) && SettlementProper(e, t, scope, p)
    ensures Execution.TemporalSafety(p.ExecutionPayload(e, g.commitment)) == Ok(true)
  {
    hide Authorised, Execution.Attestation, Execution.TemporalSafety, Execution.QuantumBinding;
    EnvelopeGood(e, t, scope, p.executeKey, p.ExecutionPayload(e, g.commitment), g.execution);
    ExecutionFields(e, p, g.commitment);
  }

  // ----- are the seeds of a made trade independent? -----

  lemma OwnSeedsRead(e: Primitives, flow: Flow, p: Plan, g: Signed)
    requires AllPresent(flow) && Records(e, flow, p, g)
    ensures OwnSeed(flow.commitment.value.data, "quantum_seed_commitment") == Str(p.commitKey.seed.Hash(e))
    ensures OwnSeed(flow.execution.value.data, "execution_quantum_seed_commitment") == Str(p.executeKey.seed.Hash(e))
    ensures OwnSeed(flow.settlement.value.data, "settlement_quantum_seed_commitment") == Str(p.settleKey.seed.Hash(e))
  {
    hide Commitment.Payload, Execution.Attestation, Settlement.Payload, HexOfBytes;
    CommitmentReads(e, p);
    ExecutionReads(e, p, g.commitment);
    SettlementSeeds(e, p, g.commitment, g.execution, g.broker);
  }

  /** A trade that reuses the seed of its commitment or of its execution for its settlement is
      certified all the same, when the settlement is told another hash for that phase: the verifiers
      promise independent seeds and do not check them. */
  lemma SeedReuseCertified(e: Primitives, t: Table, scope: string, flow: Flow, p: Plan, g: Signed)
    requires Made(e, p, g) && Records(e, flow, p, g) && AllPresent(flow) && Proper(e, t, scope, p)
    requires p.settleKey.seed == p.commitKey.seed || p.settleKey.seed == p.executeKey.seed
    ensures ChainValid(e, Some(t), scope, flow) && Issues(FlowTests(e, Some(t), scope, flow)) == []
    ensures !SeedsIndependent(flow)
    ensures p.settleKey.seed == p.commitKey.seed ==> p.claimedCommit != p.commitKey.seed.Hash(e)
    ensures p.settleKey.seed == p.executeKey.seed ==> p.claimedExecute != p.executeKey.seed.Hash(e)
  {
    hide Made, Records, ChainValid, FlowTests, Issues, OwnSeed, AllRegistered, HexOfBytes;
    MadeTradeCertifiedIff(e, t, scope, flow, p, g);
    OwnSeedsRead(e, flow, p, g);
  }

  /** An honest trade has three independent seeds. */
  lemma HonestSeedsIndependent(e: Primitives, t: Table, scope: string, flow: Flow, p: Plan, g: Signed)
    requires Made(e, p, g) && Records(e, flow, p, g) && AllPresent(flow) && Honest(e, t, scope, p)
    ensures ChainValid(e, Some(t), scope, flow) && SeedsIndependent(flow)
  {
    hide Made, Records, ChainValid, FlowTests, Issues, OwnSeed, AllRegistered, HexOfBytes;
    MadeTradeCertifiedIff(e, t, scope, flow, p, g);
    OwnSeedsRead(e, flow, p, g);
  }
}
