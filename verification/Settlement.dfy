/** The third phase: a settlement that seals both earlier signatures and the broker's. */
module Settlement {
  import opened Outcomes
  import opened Bytes
  import opened Json
  import opened JsonText
  import opened PyValues
  import opened Ecdsa
  import opened Signer
  import opened OneShot
  import opened Commitment

  // ----- the flow merkle -----

  /** `broker_signature or {}`. */
  function OrEmpty(j: Json): Json {
    if Truthy(j) then j else Obj(map[])
  }

  /** The text that `compute_flow_merkle` hashes: four parts with nothing between them. */
  function MerklePreimage(commitmentSig: Json, executionSig: Json, ack: string, brokerSignature: Json): string {
    Print(commitmentSig) + Print(executionSig) + ack + Print(OrEmpty(brokerSignature))
  }

  /** `compute_flow_merkle`. */
  function FlowMerkle(e: Primitives, commitmentSig: Json, executionSig: Json, ack: string, brokerSignature: Json): string {
    HexOfBytes(e.sha256(Utf8(MerklePreimage(commitmentSig, executionSig, ack, brokerSignature))))
  }

  lemma TailParts(a: string, t: string, b: string, u: string)
    requires a + t == b + u && |t| <= |u|
    ensures u == u[..|u| - |t|] + t && a == b + u[..|u| - |t|]
  {
    var n := |u| - |t|;
    assert |a| == |b| + n;
    assert (a + t)[..|a|] == a && (b + u)[..|a|] == b + u[..n];
    assert (a + t)[|a|..] == t && (b + u)[|a|..] == u[n..];
    assert u == u[..n] + u[n..];
  }

  /** Text before a printed object at the end is determined, whatever text it is. */
  lemma SplitBeforeObject(a: string, s: Json, b: string, t: Json)
    requires s.Obj? && t.Obj? && a + Print(s) == b + Print(t)
    ensures a == b && s == t
  {
    hide Print;
    if |Print(s)| <= |Print(t)| {
      TailParts(a, Print(s), b, Print(t));
      ObjectsSuffixFree(t, s, Print(t)[..|Print(t)| - |Print(s)|]);
    } else {
      TailParts(b, Print(t), a, Print(s));
      ObjectsSuffixFree(s, t, Print(s)[..|Print(s)| - |Print(t)|]);
    }
  }

  /** The concatenation is uniquely decodable although nothing separates its parts and the broker's
      acknowledgement is arbitrary text: equal texts come from equal parts, up to an absent broker
      signature and an empty one. */
  lemma MerklePreimageDecodes(
    c: Dict, x: Dict, ack: string, s: Json, c': Dict, x': Dict, ack': string, s': Json)
    requires OrEmpty(s).Obj? && OrEmpty(s').Obj?
    requires MerklePreimage(c, x, ack, s) == MerklePreimage(c', x', ack', s')
    ensures c == c' && x == x' && ack == ack' && OrEmpty(s) == OrEmpty(s')
  {
    hide Print, OrEmpty;
    var end, end' := Print(OrEmpty(s)), Print(OrEmpty(s'));
    Assoc(Print(c), Print(x), ack);
    Assoc(Print(c), Print(x) + ack, end);
    Assoc(Print(x), ack, end);
    Assoc(Print(c'), Print(x'), ack');
    Assoc(Print(c'), Print(x') + ack', end');
    Assoc(Print(x'), ack', end');
    ObjectsPrefixFree(c, c', Print(x) + (ack + end), Print(x') + (ack' + end'));
    ObjectsPrefixFree(x, x', ack + end, ack' + end');
    SplitBeforeObject(ack, OrEmpty(s), ack', OrEmpty(s'));
  }

  /** With a hash that does not collide on the two texts, the merkle hash binds all four parts. */
  lemma FlowMerkleBinds(
    e: Primitives, c: Dict, x: Dict, ack: string, s: Json, c': Dict, x': Dict, ack': string, s': Json)
    requires OrEmpty(s).Obj? && OrEmpty(s').Obj?
    requires var t, t' := Utf8(MerklePreimage(c, x, ack, s)), Utf8(MerklePreimage(c', x', ack', s'));
             e.sha256(t) == e.sha256(t') ==> t == t'
    ensures FlowMerkle(e, c, x, ack, s) == FlowMerkle(e, c', x', ack', s')
            <==> c == c' && x == x' && ack == ack' && OrEmpty(s) == OrEmpty(s')
  {
    hide Utf8, HexOfBytes;
    var t, t' := MerklePreimage(c, x, ack, s), MerklePreimage(c', x', ack', s');
    if FlowMerkle(e, c, x, ack, s) == FlowMerkle(e, c', x', ack', s') {
      HexOfBytesInjective(e.sha256(Utf8(t)), e.sha256(Utf8(t')));
      Utf8Injective(t, t');
      MerklePreimageDecodes(c, x, ack, s, c', x', ack', s');
    }
  }

  /** `build_broker_attestation`. */
  function BrokerAttestation(orderId: Json, commitmentSig: Json, executionSig: Json, ack: Json): Dict {
    Obj(map[
      "order_id" := orderId,
      "broker_ack" := ack,
      "commitment_sig" := commitmentSig,
      "execution_sig" := executionSig])
  }

  /** The message that the broker signs has the four values under their names, so it binds them: unless the
      texts of two messages collide, their hashes are equal exactly when all four are. */
  lemma AttestationFields(orderId: Json, commitmentSig: Json, executionSig: Json, ack: Json)
    ensures var j := BrokerAttestation(orderId, commitmentSig, executionSig, ack);
            && j.fields.Keys == {"order_id", "broker_ack", "commitment_sig", "execution_sig"}
            && j.Get("order_id") == Some(orderId) && j.Get("broker_ack") == Some(ack)
            && j.Get("commitment_sig") == Some(commitmentSig) && j.Get("execution_sig") == Some(executionSig)
  {
  }

  lemma AttestationBinds(e: Primitives, o: Json, c: Json, x: Json, ack: Json, o': Json, c': Json, x': Json, ack': Json)
    requires var m, n := BrokerAttestation(o, c, x, ack), BrokerAttestation(o', c', x', ack');
             e.sha256(Utf8(Print(m))) == e.sha256(Utf8(Print(n))) ==> Utf8(Print(m)) == Utf8(Print(n))
    ensures MessageHash(e, BrokerAttestation(o, c, x, ack)) == MessageHash(e, BrokerAttestation(o', c', x', ack'))
            <==> o == o' && c == c' && x == x' && ack == ack'
  {
    hide Print, Utf8, BrokerAttestation, MessageHash;
    HashBindsManifest(e, BrokerAttestation(o, c, x, ack), BrokerAttestation(o', c', x', ack'));
    AttestationFields(o, c, x, ack);
    AttestationFields(o', c', x', ack');
  }

  /** The hashed text begins with the commitment's envelope, goes on with that of the execution and ends
      with the broker's. */
  lemma MerkleOrder(c: Json, x: Json, ack: string, s: Json)
    ensures var t, last := MerklePreimage(c, x, ack, s), if s == Null then "{}" else Print(s);
            && Print(c) <= t && Print(x) <= t[|Print(c)|..] && ack <= t[|Print(c)| + |Print(x)|..]
            && (s == Null || (s.Obj? && s.fields != map[]) ==> t[|Print(c)| + |Print(x)| + |ack|..] == last)
  {
    EmptyText();
    hide Print;
    FourParts(Print(c), Print(x), ack, Print(OrEmpty(s)));
  }

  lemma FourParts(a: string, b: string, c: string, d: string)
    ensures var t := a + b + c + d;
            a <= t && b <= t[|a|..] && c <= t[|a| + |b|..] && t[|a| + |b| + |c|..] == d
  {
    var t := a + b + c + d;
    assert t[|a|..] == b + c + d && t[|a| + |b|..] == c + d;
  }

  lemma EmptyText()
    ensures Print(Obj(map[])) == "{}"
  {
    PrintExamples();
  }

  // ----- the record -----

  /** `to_signable_dict`. */
  function Payload(e: Primitives, orderId: string,
                   commitmentSig: Json, commitmentSeedHash: string, commitmentWindow: Json,
                   executionSig: Json, executionSeedHash: string, executionWindow: Json,
                   ack: string, brokerSignature: Json, now: int, c: SeedCommitment): Dict
  {
    Obj(PayloadFields(orderId, commitmentSig, commitmentSeedHash, commitmentWindow,
                      executionSig, executionSeedHash, executionWindow, ack, brokerSignature, now, c,
                      FlowMerkle(e, commitmentSig, executionSig, ack, brokerSignature)))
  }

  function PayloadFields(orderId: string,
                         commitmentSig: Json, commitmentSeedHash: string, commitmentWindow: Json,
                         executionSig: Json, executionSeedHash: string, executionWindow: Json,
                         ack: string, brokerSignature: Json, now: int, c: SeedCommitment, merkle: string): map<string, Json>
  {
    map[
      "order_id" := Str(orderId),
      "commitment_sig" := commitmentSig,
      "commitment_quantum_seed_commitment" := Str(commitmentSeedHash),
      "commitment_temporal_window" := commitmentWindow,
      "execution_sig" := executionSig,
      "execution_quantum_seed_commitment" := Str(executionSeedHash),
      "execution_temporal_window" := executionWindow,
      "broker_settlement_sig" := Str(ack),
      "broker_signature" := brokerSignature,
      "settlement_timestamp" := Num(now),
      "settlement_quantum_seed_commitment" := Str(c.seedHash),
      "settlement_temporal_window" := c.Window(),
      "flow_merkle_hash" := Str(merkle)]
  }

  /** The fields of a settlement. */
  lemma PayloadStates(e: Primitives, orderId: string,
                      commitmentSig: Json, commitmentSeedHash: string, commitmentWindow: Json,
                      executionSig: Json, executionSeedHash: string, executionWindow: Json,
                      ack: string, brokerSignature: Json, now: int, c: SeedCommitment)
    ensures var j := Payload(e, orderId, commitmentSig, commitmentSeedHash, commitmentWindow, executionSig,
                             executionSeedHash, executionWindow, ack, brokerSignature, now, c);
            && j.Get("order_id") == Some(Str(orderId)) && j.Get("settlement_timestamp") == Some(Num(now))
            && j.Get("commitment_sig") == Some(commitmentSig) && j.Get("execution_sig") == Some(executionSig)
            && j.Get("commitment_temporal_window") == Some(commitmentWindow)
            && j.Get("execution_temporal_window") == Some(executionWindow)
            && j.Get("settlement_temporal_window") == Some(c.Window())
            && j.Get("broker_settlement_sig") == Some(Str(ack)) && j.Get("broker_signature") == Some(brokerSignature)
  {
    hide FlowMerkle;
  }

  /** `create_and_sign`. */
  method CreateAndSign(
    e: Primitives, orderId: string,
    commitmentSig: Json, commitmentSeedHash: string, commitmentWindow: Json,
    executionSig: Json, executionSeedHash: string, executionWindow: Json,
    ack: string, brokerSignature: Json, now: int, k: KeyUse)
    returns (r: Result<(Dict, Dict)>)
    requires e.d.Sound()
    requires k.Ends(e, Payload(e, orderId, commitmentSig, commitmentSeedHash, commitmentWindow,
                               executionSig, executionSeedHash, executionWindow, ack, brokerSignature,
                               now, k.Record(e)))
    ensures var payload := Payload(e, orderId, commitmentSig, commitmentSeedHash, commitmentWindow,
                                   executionSig, executionSeedHash, executionWindow, ack, brokerSignature,
                                   now, k.Record(e));
            r == WithEnvelope(payload, k.Sign(e, payload))
  {
    hide SignedEnvelope, Signable, PublicKey, CompressKey, DeriveKey, Payload;
    var made := NewKey(e, k.seed, k.measurement, DEFAULT_KEY_LIFETIME_SECONDS, k.madeAt);
    if made.Err? { return Err(made.error); }
    var key := made.value;
    var signable := Payload(e, orderId, commitmentSig, commitmentSeedHash, commitmentWindow,
                            executionSig, executionSeedHash, executionWindow, ack, brokerSignature,
                            now, key.seedCommitment);
    var signature := SignFresh(e, k, key, signable);
    return WithEnvelope(signable, signature);
  }

  // ----- checks -----

  /** `verify_chain`. */
  function Chain(e: Primitives, commitmentSig: Dict, executionSig: Dict, s: Dict): Result<bool>
    requires 2 <= e.d.p && 2 <= e.d.n
  {
    if !Same(GetOr(s, "commitment_sig", Null), commitmentSig) then Ok(false)
    else if !Same(GetOr(s, "execution_sig", Null), executionSig) then Ok(false)
    else
      var ack := GetOr(s, "broker_settlement_sig", Str(""));
      var brokerSignature := GetOr(s, "broker_signature", Null);
      if !ack.Str? then Err(BadType)
      else if GetOr(s, "flow_merkle_hash", Null) != Str(FlowMerkle(e, commitmentSig, executionSig, ack.s, brokerSignature))
      then Ok(false)
      else Ok(VerifyStatic(e,
                BrokerAttestation(GetOr(s, "order_id", Null), commitmentSig, executionSig, ack),
                OrEmpty(brokerSignature)))
  }

  /** `verify_all_seeds_independent`: three different values other than None. */
  function AllSeedsIndependent(s: Dict): Result<bool> {
    var a := GetOr(s, "commitment_quantum_seed_commitment", Null);
    var b := GetOr(s, "execution_quantum_seed_commitment", Null);
    var c := GetOr(s, "settlement_quantum_seed_commitment", Null);
    if Unhashable(a) || Unhashable(b) || Unhashable(c) then Err(BadType)
    else Ok(a != Null && b != Null && c != Null && !Same(a, b) && !Same(a, c) && !Same(b, c))
  }

  predicate Unhashable(j: Json) {
    j.Arr? || j.Obj?
  }

  /** One round of `verify_all_temporal_windows`. */
  function WindowSafe(window: Json): Result<bool> {
    if !window.Obj? then Ok(false)
    else
      var expiresAt := GetOr(window, "expires_at", Num(0));
      var attack := GetOr(window, "shor_earliest_attack", Num(0));
      if !Truthy(expiresAt) || !Truthy(attack) then Ok(false) else Less(expiresAt, attack)
  }

  /** `verify_all_temporal_windows`: the first window that fails ends the check. */
  function AllWindows(s: Dict): Result<bool> {
    var first :- WindowSafe(GetOr(s, "commitment_temporal_window", Obj(map[])));
    if !first then Ok(false)
    else
      var second :- WindowSafe(GetOr(s, "execution_temporal_window", Obj(map[])));
      if !second then Ok(false)
      else WindowSafe(GetOr(s, "settlement_temporal_window", Obj(map[])))
  }
}
