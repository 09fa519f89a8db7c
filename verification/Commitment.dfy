/** The first phase: a trade decision bound to account state, seed and time window. */
module Commitment {
  import opened Outcomes
  import opened Bytes
  import opened Json
  import opened PyValues
  import opened Ecdsa
  import opened Signer
  import opened OneShot

  /** An account snapshot; amounts and ratios are integers here. */
  datatype AccountSnapshot = AccountSnapshot(
    capital: int, equity: int, openPositions: seq<Json>, riskUsed: int, riskLimit: int, nonce: int, timestamp: int)
  {
    function ToJson(): Json {
      Obj(map[
        "capital" := Num(capital),
        "equity" := Num(equity),
        "open_positions" := Arr(openPositions),
        "risk_used" := Num(riskUsed),
        "risk_limit" := Num(riskLimit),
        "nonce" := Num(nonce),
        "timestamp" := Num(timestamp)])
    }

    function Hash(e: Primitives): string {
      HexOfBytes(e.sha256(Utf8(Print(ToJson()))))
    }
  }

  /** The fields of a snapshot, which its hash binds: unless the canonical texts of two snapshots collide,
      their hashes are equal exactly when the snapshots are. */
  lemma SnapshotFields(a: AccountSnapshot)
    ensures var j := a.ToJson();
            && j.fields.Keys == {"capital", "equity", "open_positions", "risk_used", "risk_limit", "nonce", "timestamp"}
            && j.Get("capital") == Some(Num(a.capital)) && j.Get("equity") == Some(Num(a.equity))
            && j.Get("open_positions") == Some(Arr(a.openPositions))
            && j.Get("risk_used") == Some(Num(a.riskUsed)) && j.Get("risk_limit") == Some(Num(a.riskLimit))
            && j.Get("nonce") == Some(Num(a.nonce)) && j.Get("timestamp") == Some(Num(a.timestamp))
  {
  }

  lemma StateHashBinds(e: Primitives, a: AccountSnapshot, b: AccountSnapshot)
    requires var x, y := Utf8(Print(a.ToJson())), Utf8(Print(b.ToJson())); e.sha256(x) == e.sha256(y) ==> x == y
    ensures a.Hash(e) == b.Hash(e) <==> a == b
  {
    hide Print, Utf8, Loads, HexOfBytes;
    if a.Hash(e) == b.Hash(e) {
      HexOfBytesInjective(e.sha256(Utf8(Print(a.ToJson()))), e.sha256(Utf8(Print(b.ToJson()))));
      Utf8Injective(Print(a.ToJson()), Print(b.ToJson()));
      LoadsOfPrint(a.ToJson());
      LoadsOfPrint(b.ToJson());
      SnapshotFields(a);
      SnapshotFields(b);
    }
  }

  /** `to_signable_dict`: the hash of the reasoning is signed when there is one. */
  function Payload(e: Primitives, orderId: string, tradeDetails: Dict, state: AccountSnapshot,
                   c: SeedCommitment, reasoningHash: Option<string>, now: int): Dict
  {
    var fields := map[
      "order_id" := Str(orderId),
      "trade_details" := tradeDetails,
      "account_state_hash" := Str(state.Hash(e)),
      "quantum_seed_commitment" := Str(c.seedHash),
      "seed_measurement_method" := Str(c.measurementMethod),
      "key_temporal_window" := c.Window(),
      "nonce" := Num(state.nonce),
      "timestamp" := Num(now)];
    Obj(if reasoningHash.Some? then fields["reasoning_hash" := Str(reasoningHash.value)] else fields)
  }

  /** The fields of a commitment. */
  lemma PayloadFields(e: Primitives, orderId: string, tradeDetails: Dict, state: AccountSnapshot,
                      c: SeedCommitment, reasoningHash: Option<string>, now: int)
    ensures var j := Payload(e, orderId, tradeDetails, state, c, reasoningHash, now);
            && j.Get("order_id") == Some(Str(orderId)) && j.Get("trade_details") == Some(tradeDetails)
            && j.Get("account_state_hash") == Some(Str(HexOfBytes(e.sha256(Utf8(Print(state.ToJson()))))))
            && j.Get("quantum_seed_commitment") == Some(Str(c.seedHash))
            && j.Get("seed_measurement_method") == Some(Str(c.measurementMethod))
            && j.Get("key_temporal_window") == Some(c.Window())
            && j.Get("nonce") == Some(Num(state.nonce)) && j.Get("timestamp") == Some(Num(now))
            && (match reasoningHash
                case Some(hash) => j.Get("reasoning_hash") == Some(Str(hash))
                case None => j.Get("reasoning_hash") == None)
  {
    hide HexOfBytes, Utf8, Print;
  }

  /** A payload with the envelope that signing it gave. */
  function WithEnvelope(payload: Dict, envelope: Result<Dict>): Result<(Dict, Dict)> {
    match envelope
    case Err(error) => Err(error)
    case Ok(signature) => Ok((payload, signature))
  }

  /** `create_and_sign`: payload and envelope, or the exception of the key or of signing. */
  method CreateAndSign(
    e: Primitives, orderId: string, tradeDetails: Dict, state: AccountSnapshot, reasoningHash: Option<string>,
    now: int, k: KeyUse)
    returns (r: Result<(Dict, Dict)>)
    requires e.d.Sound()
    requires k.Ends(e, Payload(e, orderId, tradeDetails, state, k.Record(e), reasoningHash, now))
    ensures var payload := Payload(e, orderId, tradeDetails, state, k.Record(e), reasoningHash, now);
            r == WithEnvelope(payload, k.Sign(e, payload))
  {
    hide SignedEnvelope, Signable, PublicKey, CompressKey, DeriveKey, Payload;
    var made := NewKey(e, k.seed, k.measurement, DEFAULT_KEY_LIFETIME_SECONDS, k.madeAt);
    if made.Err? { return Err(made.error); }
    var key := made.value;
    var signable := Payload(e, orderId, tradeDetails, state, key.seedCommitment, reasoningHash, now);
    var signature := SignFresh(e, k, key, signable);
    return WithEnvelope(signable, signature);
  }

  // ----- checks -----

  /** `verify_state_binding`. */
  predicate StateBinding(c: Dict) {
    var hash, nonce := GetOr(c, "account_state_hash", Str("")), GetOr(c, "nonce", Null);
    hash.Str? && |hash.s| == 64 && NumOf(nonce).Some?
  }

  /** `verify_quantum_binding`. */
  function QuantumBinding(c: Dict): Result<bool> {
    var seedHash := GetOr(c, "quantum_seed_commitment", Str(""));
    if !Truthy(seedHash) then Ok(false)
    else
      var n :- Length(seedHash);
      var measurement := GetOr(c, "seed_measurement_method", Str(""));
      var window := GetOr(c, "key_temporal_window", Obj(map[]));
      if n != 64 || !measurement.Str? || !IsMeasurementMethod(measurement.s) then Ok(false)
      else if !window.Obj? || window.Get("created_at").None? || window.Get("expires_at").None? then Ok(false)
      else Less(window.Get("created_at").value, window.Get("expires_at").value)
  }

  /** `verify_temporal_safety`. */
  function TemporalSafety(c: Dict): Result<bool> {
    var window := GetOr(c, "key_temporal_window", Obj(map[]));
    if !window.Obj? then Err(BadType)
    else
      var createdAt := GetOr(window, "created_at", Num(0));
      var expiresAt := GetOr(window, "expires_at", Num(0));
      var attack := GetOr(window, "shor_earliest_attack", Num(0));
      if !Truthy(createdAt) || !Truthy(expiresAt) || !Truthy(attack) then Ok(false)
      else Less(expiresAt, attack)
  }
}
