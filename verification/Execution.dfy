/** The second phase: an execution attested with an independent key. */
module Execution {
  import opened Outcomes
  import opened Json
  import opened PyValues
  import opened Ecdsa
  import opened Signer
  import opened OneShot
  import opened Commitment

  datatype ExecutionResult = ExecutionResult(
    orderId: string, symbol: string, side: string, filledQty: int, fillPrice: int,
    timestamp: int, brokerResponse: Dict)
  {
    function ToJson(): Json {
      Obj(map[
        "order_id" := Str(orderId),
        "symbol" := Str(symbol),
        "side" := Str(side),
        "filled_qty" := Num(filledQty),
        "fill_price" := Num(fillPrice),
        "execution_timestamp" := Num(timestamp),
        "broker_response" := brokerResponse])
    }
  }

  /** `to_signable_dict`. */
  function Attestation(e: Primitives, commitmentSig: Json, commitmentSeedHash: string, fill: Json,
                       state: AccountSnapshot, c: SeedCommitment): Dict
  {
    Obj(AttestationFields(commitmentSig, commitmentSeedHash, fill, state.Hash(e), state.nonce, c))
  }

  function AttestationFields(commitmentSig: Json, commitmentSeedHash: string, fill: Json,
                             stateHash: string, nonce: int, c: SeedCommitment): map<string, Json>
  {
    map[
      "commitment_sig" := commitmentSig,
      "commitment_quantum_seed_commitment" := Str(commitmentSeedHash),
      "execution_result" := fill,
      "execution_quantum_seed_commitment" := Str(c.seedHash),
      "new_account_state_hash" := Str(stateHash),
      "nonce_after" := Num(nonce),
      "key_temporal_window" := c.Window()]
  }

  /** The fields of a fill and of an attestation. */
  lemma FillFields(fill: ExecutionResult)
    ensures var j := fill.ToJson();
            && j.Get("order_id") == Some(Str(fill.orderId)) && j.Get("symbol") == Some(Str(fill.symbol))
            && j.Get("side") == Some(Str(fill.side)) && j.Get("filled_qty") == Some(Num(fill.filledQty))
            && j.Get("fill_price") == Some(Num(fill.fillPrice))
            && j.Get("execution_timestamp") == Some(Num(fill.timestamp))
            && j.Get("broker_response") == Some(fill.brokerResponse)
  {
  }

  lemma AttestationStates(e: Primitives, commitmentSig: Json, commitmentSeedHash: string, fill: Json,
                          state: AccountSnapshot, c: SeedCommitment)
    ensures var j := Attestation(e, commitmentSig, commitmentSeedHash, fill, state, c);
            && j.Get("commitment_sig") == Some(commitmentSig)
            && j.Get("commitment_quantum_seed_commitment") == Some(Str(commitmentSeedHash))
            && j.Get("execution_result") == Some(fill)
            && j.Get("execution_quantum_seed_commitment") == Some(Str(c.seedHash))
            && j.Get("new_account_state_hash") == Some(Str(state.Hash(e)))
            && j.Get("nonce_after") == Some(Num(state.nonce)) && j.Get("key_temporal_window") == Some(c.Window())
  {
    hide AccountSnapshot.Hash;
  }

  /** `create_and_sign`. */
  method CreateAndSign(
    e: Primitives, commitmentSig: Json, commitmentSeedHash: string, fill: ExecutionResult, state: AccountSnapshot,
    k: KeyUse)
    returns (r: Result<(Dict, Dict)>)
    requires e.d.Sound()
    requires k.Ends(e, Attestation(e, commitmentSig, commitmentSeedHash, fill.ToJson(), state, k.Record(e)))
    ensures var payload := Attestation(e, commitmentSig, commitmentSeedHash, fill.ToJson(), state, k.Record(e));
            r == WithEnvelope(payload, k.Sign(e, payload))
  {
    hide SignedEnvelope, Signable, PublicKey, CompressKey, DeriveKey, Attestation;
    var made := NewKey(e, k.seed, k.measurement, DEFAULT_KEY_LIFETIME_SECONDS, k.madeAt);
    if made.Err? { return Err(made.error); }
    var key := made.value;
    var signable := Attestation(e, commitmentSig, commitmentSeedHash, fill.ToJson(), state, key.seedCommitment);
    var signature := SignFresh(e, k, key, signable);
    return WithEnvelope(signable, signature);
  }

  // ----- checks -----

  /** `verify_references_commitment`. */
  predicate ReferencesCommitment(x: Dict, commitmentSig: Dict) {
    Same(GetOr(x, "commitment_sig", Null), commitmentSig)
  }

  /** `abs(a - b) / abs(a) <= 0.02`. */
  predicate WithinTolerance(authorised: int, fill: int)
    requires authorised != 0
  {
    var gap := if fill < authorised then authorised - fill else fill - authorised;
    var size := if authorised < 0 then -authorised else authorised;
    gap as real / size as real <= 0.02
  }

  /** `verify_matches_commitment_terms` on integer quantities and prices: every term must be given on
      both sides, symbol and side equal, the quantity not exceeded, the price within two percent. */
  predicate MatchesTerms(tradeDetails: Json, fill: Json) {
    && tradeDetails.Obj? && fill.Obj?
    && var qty, price := NumOf(GetOr(tradeDetails, "qty", Null)), NumOf(GetOr(tradeDetails, "price", Null));
       var symbol, side := GetOr(tradeDetails, "symbol", Null), GetOr(tradeDetails, "side", Null);
       var filledQty, fillPrice := NumOf(GetOr(fill, "filled_qty", Null)), NumOf(GetOr(fill, "fill_price", Null));
       && symbol != Null && side != Null
       && Same(GetOr(fill, "symbol", Null), symbol) && Same(GetOr(fill, "side", Null), side)
       && qty.Some? && price.Some? && filledQty.Some? && fillPrice.Some?
       && 0 <= filledQty.value <= qty.value
       && if price.value == 0 then fillPrice.value == 0 else WithinTolerance(price.value, fillPrice.value)
  }

  /** `verify_nonce_increment`. */
  function NonceIncrement(commitmentNonce: Json, x: Dict): Result<bool> {
    match NumOf(commitmentNonce)
    case None => Err(BadType)
    case Some(n) => Ok(Same(GetOr(x, "nonce_after", Null), Num(n + 1)))
  }

  /** `verify_quantum_binding`. */
  function QuantumBinding(x: Dict): Result<bool> {
    var seedHash := GetOr(x, "execution_quantum_seed_commitment", Str(""));
    if !Truthy(seedHash) then Ok(false)
    else
      var n :- Length(seedHash);
      var window := GetOr(x, "key_temporal_window", Obj(map[]));
      Ok(n == 64 && window.Get("created_at").Some? && window.Get("expires_at").Some?)
  }

  /** `verify_temporal_safety`. */
  function TemporalSafety(x: Dict): Result<bool> {
    var window := GetOr(x, "key_temporal_window", Obj(map[]));
    if !window.Obj? then Err(BadType)
    else
      var expiresAt := GetOr(window, "expires_at", Num(0));
      var attack := GetOr(window, "shor_earliest_attack", Num(0));
      if !Truthy(expiresAt) || !Truthy(attack) then Ok(false) else Less(expiresAt, attack)
  }

  function Magnitude(n: int): nat {
    if n < 0 then -n else n
  }

  /** Terms kept, in whole numbers: symbol and side given and the same, nothing filled that is negative
      or beyond the authorised quantity, and fifty times the price gap at most the authorised price,
      also when that is zero. */
  ghost predicate WithinTerms(tradeDetails: Json, fill: Json) {
    && tradeDetails.Obj? && fill.Obj?
    && GetOr(tradeDetails, "symbol", Null) != Null && GetOr(tradeDetails, "side", Null) != Null
    && Same(GetOr(fill, "symbol", Null), GetOr(tradeDetails, "symbol", Null))
    && Same(GetOr(fill, "side", Null), GetOr(tradeDetails, "side", Null))
    && match (NumOf(GetOr(tradeDetails, "qty", Null)), NumOf(GetOr(tradeDetails, "price", Null)),
              NumOf(GetOr(fill, "filled_qty", Null)), NumOf(GetOr(fill, "fill_price", Null)))
       case (Some(qty), Some(price), Some(filledQty), Some(fillPrice)) =>
         0 <= filledQty <= qty && 50 * Magnitude(fillPrice - price) <= Magnitude(price)
       case _ => false
  }

  /** The check accepts exactly the terms that are kept, for all values, given or missing. */
  lemma TermsMeaning(tradeDetails: Json, fill: Json)
    ensures MatchesTerms(tradeDetails, fill) <==> WithinTerms(tradeDetails, fill)
  {
    hide Same;
    var price, fillPrice := NumOf(GetOr(tradeDetails, "price", Null)), NumOf(GetOr(fill, "fill_price", Null));
    if price.Some? && fillPrice.Some? && price.value != 0 { ToleranceInIntegers(price.value, fillPrice.value); }
  }

  lemma ToleranceInIntegers(price: int, fillPrice: int)
    requires price != 0
    ensures WithinTolerance(price, fillPrice) <==> 50 * Magnitude(fillPrice - price) <= Magnitude(price)
  {
    var gap, size := Magnitude(fillPrice - price), Magnitude(price);
    RatioAtMost(gap as real / size as real, gap as real, size as real);
    assert (50 * gap) as real == 50.0 * gap as real;
  }

  lemma RatioAtMost(ratio: real, gap: real, size: real)
    requires 0.0 < size && ratio * size == gap
    ensures ratio <= 0.02 <==> 50.0 * gap <= size
  {
    var slack := 0.02 - ratio;
    assert slack * size == 0.02 * size - gap;
    assert slack >= 0.0 <==> slack * size >= 0.0;
  }
}
