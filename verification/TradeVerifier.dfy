/** The two verifiers of a whole trade flow, each proved against the list of checks that its code
    makes, and what the two lists have to do with each other. */
module TradeVerifier {
  import opened Outcomes
  import opened Bytes
  import opened Json
  import opened PyValues
  import opened Ecdsa
  import opened Signer
  import opened Registry
  import opened AuditStore
  import opened AuditLogFile
  import Commitment
  import Execution
  import Settlement

  // ----- checks made by both -----

  /** `registry.is_authorized(account, key)` for a key read from an envelope. */
  function KeyAuthorized(t: Table, account: string, key: Json): Result<bool> {
    if account == [] || !Truthy(key) then Ok(false)
    else if key.Str? then Ok(Authorized(t, account, key.s))
    else Err(BadType)
  }

  /** The public key inside the broker's envelope. */
  function BrokerKey(s: Dict): Result<Json> {
    var signature := Settlement.OrEmpty(GetOr(s, "broker_signature", Null));
    if signature.Obj? then Ok(GetOr(signature, "pubkey", Str(""))) else Err(BadType)
  }

  // ----- verify_trade_flow -----

  /** `_identity_ok`. */
  function IdentityOk(t: Option<Table>, scope: string, signature: Dict): Result<bool> {
    if t.None? || !Truthy(signature) then Ok(false)
    else KeyAuthorized(t.value, scope, GetOr(signature, "pubkey", Str("")))
  }

  function BrokerOk(t: Option<Table>, scope: string, s: Dict): Result<bool> {
    var key :- BrokerKey(s);
    if t.None? then Ok(false) else KeyAuthorized(t.value, BrokerScope(scope), key)
  }

  type Checks = seq<Result<bool>>

  /** Some check raises. */
  ghost predicate Raises(checks: Checks) {
    exists i :: 0 <= i < |checks| && checks[i].Err?
  }

  /** Every check says yes. */
  ghost predicate Holds(checks: Checks) {
    forall i :: 0 <= i < |checks| ==> checks[i] == Ok(true)
  }

  function CommitmentChecks(e: Primitives, t: Option<Table>, scope: string, c: PhaseRecord): Checks
    requires e.d.Sound()
  {
    [Ok(VerifyStatic(e, c.data, c.signature)),
     Ok(Commitment.StateBinding(c.data)),
     Commitment.QuantumBinding(c.data),
     Commitment.TemporalSafety(c.data),
     IdentityOk(t, scope, c.signature)]
  }

  /** The checks that relate an execution to its commitment; `noNonce` is the nonce assumed when the
      commitment has none. */
  function LinkChecks(c: PhaseRecord, x: PhaseRecord, noNonce: int): Checks {
    [Ok(Execution.ReferencesCommitment(x.data, c.signature)),
     Execution.NonceIncrement(GetOr(c.data, "nonce", Num(noNonce)), x.data),
     Ok(!Same(GetOr(c.data, "quantum_seed_commitment", Str("")),
              GetOr(x.data, "execution_quantum_seed_commitment", Str("")))),
     Ok(Execution.MatchesTerms(GetOr(c.data, "trade_details", Obj(map[])),
                               GetOr(x.data, "execution_result", Obj(map[]))))]
  }

  function ExecutionChecks(e: Primitives, t: Option<Table>, scope: string, c: Option<PhaseRecord>, x: PhaseRecord): Checks
    requires e.d.Sound()
  {
    [Ok(VerifyStatic(e, x.data, x.signature)),
     Execution.QuantumBinding(x.data),
     Execution.TemporalSafety(x.data),
     IdentityOk(t, scope, x.signature)]
    + if c.Some? then LinkChecks(c.value, x, 0) else []
  }

  function SettlementChecks(e: Primitives, t: Option<Table>, scope: string,
                            c: Option<PhaseRecord>, x: Option<PhaseRecord>, s: PhaseRecord): Checks
    requires e.d.Sound()
  {
    [Ok(VerifyStatic(e, s.data, s.signature)),
     IdentityOk(t, scope, s.signature),
     BrokerOk(t, scope, s.data)]
    + (if c.Some? && x.Some? then [Settlement.Chain(e, c.value.signature, x.value.signature, s.data)] else [])
    + [Settlement.AllSeedsIndependent(s.data), Settlement.AllWindows(s.data)]
  }

  datatype Report = Report(
    orderId: string, quantumSafe: bool, chainValid: bool,
    commitmentValid: Option<bool>, executionValid: Option<bool>, settlementValid: Option<bool>, identityBound: bool)

  /** No check of a phase that is present raises. */
  ghost predicate Completes(e: Primitives, t: Option<Table>, scope: string, flow: Flow)
    requires e.d.Sound()
  {
    && (flow.commitment.Some? ==> !Raises(CommitmentChecks(e, t, scope, flow.commitment.value)))
    && (flow.execution.Some? ==> !Raises(ExecutionChecks(e, t, scope, flow.commitment, flow.execution.value)))
    && (flow.settlement.Some? ==>
          !Raises(SettlementChecks(e, t, scope, flow.commitment, flow.execution, flow.settlement.value)))
  }

  ghost predicate AllPresent(flow: Flow) {
    flow.commitment.Some? && flow.execution.Some? && flow.settlement.Some?
  }

  /** The flow is certified: every phase is there and every check of every phase says yes. */
  ghost predicate ChainValid(e: Primitives, t: Option<Table>, scope: string, flow: Flow)
    requires e.d.Sound()
  {
    && AllPresent(flow)
    && Holds(CommitmentChecks(e, t, scope, flow.commitment.value))
    && Holds(ExecutionChecks(e, t, scope, flow.commitment, flow.execution.value))
    && Holds(SettlementChecks(e, t, scope, flow.commitment, flow.execution, flow.settlement.value))
  }

  /** The verdict on each phase: none for a phase that is missing. */
  ghost function CommitmentVerdict(e: Primitives, t: Option<Table>, scope: string, flow: Flow): Option<bool>
    requires e.d.Sound()
  {
    match flow.commitment
    case None => None
    case Some(c) => Some(Holds(CommitmentChecks(e, t, scope, c)))
  }

  ghost function ExecutionVerdict(e: Primitives, t: Option<Table>, scope: string, flow: Flow): Option<bool>
    requires e.d.Sound()
  {
    match flow.execution
    case None => None
    case Some(x) => Some(Holds(ExecutionChecks(e, t, scope, flow.commitment, x)))
  }

  ghost function SettlementVerdict(e: Primitives, t: Option<Table>, scope: string, flow: Flow): Option<bool>
    requires e.d.Sound()
  {
    match flow.settlement
    case None => None
    case Some(s) => Some(Holds(SettlementChecks(e, t, scope, flow.commitment, flow.execution, s)))
  }

  function Scope(orderId: string, accountId: Option<string>): string {
    if accountId.Some? && accountId.value != [] then accountId.value else orderId
  }

  ghost function TableOf(registry: AccountKeyRegistry?): Option<Table>
    reads registry
  {
    if registry == null then None else Some(registry.authorized)
  }

  /** Asking one more question. */
  lemma OneMore(asked: Checks, last: Result<bool>)
    ensures Holds(asked + [last]) <==> Holds(asked) && last == Ok(true)
    ensures Raises(asked + [last]) <==> Raises(asked) || last.Err?
  {
    var all := asked + [last];
    assert all[|asked|] == last;
    if Holds(all) {
      assert forall i :: 0 <= i < |asked| ==> asked[i] == all[i];
    }
    if Raises(asked) {
      var i :| 0 <= i < |asked| && asked[i].Err?;
      assert all[i].Err?;
    }
  }

  lemma NothingAsked()
    ensures Holds([]) && !Raises([])
  {
  }

  /** A list raises when a part at its front does. */
  lemma FrontRaises(front: Checks, all: Checks)
    requires front <= all && Raises(front)
    ensures Raises(all)
  {
    var i :| 0 <= i < |front| && front[i].Err?;
    assert all[i].Err?;
  }

  method VerifyCommitment(e: Primitives, t: Option<Table>, scope: string, c: PhaseRecord) returns (r: Result<bool>)
    requires e.d.Sound()
    ensures r.Err? <==> Raises(CommitmentChecks(e, t, scope, c))
    ensures r.Ok? ==> (r.value <==> Holds(CommitmentChecks(e, t, scope, c)))
  {
    hide VerifyStatic, IdentityOk, Commitment.StateBinding, Commitment.QuantumBinding, Commitment.TemporalSafety;
    ghost var checks := CommitmentChecks(e, t, scope, c);
    var sigOk := VerifyStatic(e, c.data, c.signature);
    var stateOk := Commitment.StateBinding(c.data);
    var quantum, temporal := Commitment.QuantumBinding(c.data), Commitment.TemporalSafety(c.data);
    var identity := IdentityOk(t, scope, c.signature);
    FiveChecks(Ok(sigOk), Ok(stateOk), quantum, temporal, identity);
    assert checks == [Ok(sigOk), Ok(stateOk), quantum, temporal, identity];
    var quantumOk :- quantum;
    var temporalOk :- temporal;
    var identityOk :- identity;
    return Ok(sigOk && stateOk && quantumOk && temporalOk && identityOk);
  }

  lemma FiveChecks(a: Result<bool>, b: Result<bool>, c: Result<bool>, d: Result<bool>, f: Result<bool>)
    ensures Holds([a, b, c, d, f]) <==> a == b == c == d == f == Ok(true)
    ensures Raises([a, b, c, d, f]) <==> a.Err? || b.Err? || c.Err? || d.Err? || f.Err?
  {
    NothingAsked();
    OneMore([], a);
    OneMore([a], b);
    OneMore([a, b], c);
    OneMore([a, b, c], d);
    OneMore([a, b, c, d], f);
    assert [a, b] == [a] + [b] && [a, b, c] == [a, b] + [c] && [a, b, c, d] == [a, b, c] + [d];
    assert [a] == [] + [a] && [a, b, c, d, f] == [a, b, c, d] + [f];
  }

  lemma FourChecks(a: Result<bool>, b: Result<bool>, c: Result<bool>, d: Result<bool>)
    ensures Holds([a, b, c, d]) <==> a == b == c == d == Ok(true)
    ensures Raises([a, b, c, d]) <==> a.Err? || b.Err? || c.Err? || d.Err?
  {
    FiveChecks(a, b, c, d, Ok(true));
    OneMore([a, b, c, d], Ok(true));
    assert [a, b, c, d, Ok(true)] == [a, b, c, d] + [Ok(true)];
  }

  /** Two lists of questions one after the other. */
  lemma BothLists(a: Checks, b: Checks)
    ensures Holds(a + b) <==> Holds(a) && Holds(b)
    ensures Raises(a + b) <==> Raises(a) || Raises(b)
  {
    var all := a + b;
    if Holds(all) {
      assert forall i :: 0 <= i < |a| ==> a[i] == all[i];
      assert forall i :: 0 <= i < |b| ==> b[i] == all[|a| + i];
    }
    if Raises(a) { FrontRaises(a, all); }
    if Raises(b) {
      var i :| 0 <= i < |b| && b[i].Err?;
      assert all[|a| + i].Err?;
    }
  }

  /** The part of `verify_trade_flow` that relates an execution to its commitment. */
  method VerifyLink(c: PhaseRecord, x: PhaseRecord) returns (r: Result<bool>)
    ensures r.Err? <==> Raises(LinkChecks(c, x, 0))
    ensures r.Ok? ==> (r.value <==> Holds(LinkChecks(c, x, 0)))
  {
    hide Execution.NonceIncrement, Execution.MatchesTerms, Execution.ReferencesCommitment, Same, GetOr;
    var valid := true;
    var refOk := Execution.ReferencesCommitment(x.data, c.signature);
    if !refOk { valid := false; }
    var nonce := Execution.NonceIncrement(GetOr(c.data, "nonce", Num(0)), x.data);
    var seedsOk := !Same(GetOr(c.data, "quantum_seed_commitment", Str("")),
                         GetOr(x.data, "execution_quantum_seed_commitment", Str("")));
    var termsOk := Execution.MatchesTerms(GetOr(c.data, "trade_details", Obj(map[])),
                                          GetOr(x.data, "execution_result", Obj(map[])));
    FourChecks(Ok(refOk), nonce, Ok(seedsOk), Ok(termsOk));
    assert LinkChecks(c, x, 0) == [Ok(refOk), nonce, Ok(seedsOk), Ok(termsOk)];
    var nonceOk :- nonce;
    if !nonceOk { valid := false; }
    if !seedsOk { valid := false; }
    if !termsOk { valid := false; }
    return Ok(valid);
  }

  method VerifyExecution(e: Primitives, t: Option<Table>, scope: string, c: Option<PhaseRecord>, x: PhaseRecord)
    returns (r: Result<bool>)
    requires e.d.Sound()
    ensures r.Err? <==> Raises(ExecutionChecks(e, t, scope, c, x))
    ensures r.Ok? ==> (r.value <==> Holds(ExecutionChecks(e, t, scope, c, x)))
  {
    hide VerifyStatic, IdentityOk, LinkChecks, Execution.QuantumBinding, Execution.TemporalSafety, Holds, Raises;
    var sigOk := VerifyStatic(e, x.data, x.signature);
    var quantum, temporal := Execution.QuantumBinding(x.data), Execution.TemporalSafety(x.data);
    var identity := IdentityOk(t, scope, x.signature);
    ghost var own := [Ok(sigOk), quantum, temporal, identity];
    ghost var link := if c.Some? then LinkChecks(c.value, x, 0) else [];
    FourChecks(Ok(sigOk), quantum, temporal, identity);
    BothLists(own, link);
    NothingAsked();
    assert ExecutionChecks(e, t, scope, c, x) == own + link;
    var quantumOk :- quantum;
    var temporalOk :- temporal;
    var identityOk :- identity;
    var executionValid := sigOk && quantumOk && temporalOk && identityOk;
    if c.Some? {
      var linkOk :- VerifyLink(c.value, x);
      if !linkOk { executionValid := false; }
    }
    return Ok(executionValid);
  }

  method VerifySettlement(e: Primitives, t: Option<Table>, scope: string,
                          c: Option<PhaseRecord>, x: Option<PhaseRecord>, s: PhaseRecord)
    returns (r: Result<bool>)
    requires e.d.Sound()
    ensures r.Err? <==> Raises(SettlementChecks(e, t, scope, c, x, s))
    ensures r.Ok? ==> (r.value <==> Holds(SettlementChecks(e, t, scope, c, x, s)))
  {
    hide VerifyStatic, IdentityOk, BrokerOk, Holds, Raises;
    hide Settlement.Chain, Settlement.AllSeedsIndependent, Settlement.AllWindows;
    var sigOk := VerifyStatic(e, s.data, s.signature);
    var identity, broker := IdentityOk(t, scope, s.signature), BrokerOk(t, scope, s.data);
    var chain := if c.Some? && x.Some?
                 then Settlement.Chain(e, c.value.signature, x.value.signature, s.data) else Ok(true);
    var seeds, windows := Settlement.AllSeedsIndependent(s.data), Settlement.AllWindows(s.data);
    SettlementList(Ok(sigOk), identity, broker, chain, c.Some? && x.Some?, seeds, windows);
    var identityOk :- identity;
    var brokerOk :- broker;
    var settlementValid := sigOk && identityOk && brokerOk;
    var chainOk :- chain;
    if !chainOk { settlementValid := false; }
    var seedsOk :- seeds;
    if !seedsOk { settlementValid := false; }
    var temporalOk :- windows;
    if !temporalOk { settlementValid := false; }
    return Ok(settlementValid);
  }

  lemma SettlementList(a: Result<bool>, b: Result<bool>, c: Result<bool>, d: Result<bool>, linked: bool,
                       f: Result<bool>, g: Result<bool>)
    requires !linked ==> d == Ok(true)
    ensures var all := [a, b, c] + (if linked then [d] else []) + [f, g];
            && (Holds(all) <==> a == b == c == d == f == g == Ok(true))
            && (Raises(all) <==> a.Err? || b.Err? || c.Err? || d.Err? || f.Err? || g.Err?)
  {
    hide Holds, Raises;
    var front := [a, b, c] + if linked then [d] else [];
    FourChecks(a, b, c, d);
    OneMore([a, b, c], d);
    assert [a, b, c, d] == [a, b, c] + [d];
    assert [a, b, c] + [] == [a, b, c];
    OneMore(front, f);
    OneMore(front + [f], g);
    assert front + [f, g] == front + [f] + [g];
  }

  /** `verify_trade_flow`, without the text of its details. */
  method VerifyTradeFlow(e: Primitives, orderId: string, log: AuditLog, registry: AccountKeyRegistry?, accountId: Option<string>)
    returns (r: Result<Report>)
    requires e.d.Sound() && log.Valid()
    ensures var flow, t, scope := ScanFlow(Listed(log.view.live), orderId), TableOf(registry), Scope(orderId, accountId);
            && (r.Ok? <==> Completes(e, t, scope, flow))
            && (r.Ok? ==>
                  && r.value.orderId == orderId
                  && (r.value.chainValid <==> ChainValid(e, t, scope, flow))
                  && r.value.quantumSafe == r.value.chainValid
                  && r.value.identityBound == (registry != null)
                  && r.value.commitmentValid == CommitmentVerdict(e, t, scope, flow)
                  && r.value.executionValid == ExecutionVerdict(e, t, scope, flow)
                  && r.value.settlementValid == SettlementVerdict(e, t, scope, flow))
  {
    hide CommitmentChecks, ExecutionChecks, SettlementChecks, Holds, Raises, ScanFlow;
    var read := log.GetTradeFlow(orderId);
    var flow := read.value;
    var scope := Scope(orderId, accountId);
    var t := CurrentTable(registry);
    var commitmentValid, executionValid, settlementValid: Option<bool> := None, None, None;
    if flow.commitment.Some? {
      var valid :- VerifyCommitment(e, t, scope, flow.commitment.value);
      commitmentValid := Some(valid);
    }
    if flow.execution.Some? {
      var valid :- VerifyExecution(e, t, scope, flow.commitment, flow.execution.value);
      executionValid := Some(valid);
    }
    if flow.settlement.Some? {
      var valid :- VerifySettlement(e, t, scope, flow.commitment, flow.execution, flow.settlement.value);
      settlementValid := Some(valid);
    }
    var chainValid := commitmentValid == Some(true) && executionValid == Some(true) && settlementValid == Some(true);
    return Ok(Report(orderId, chainValid, chainValid, commitmentValid, executionValid, settlementValid, registry != null));
  }

  // ----- detect_tampering -----

  datatype Issue =
    | CommitmentSigInvalid
    | CommitmentStateUnbound
    | CommitmentQuantumUnbound
    | CommitmentTemporalUnsafe
    | ExecutionSigInvalid
    | ExecutionQuantumUnbound
    | ExecutionCommitmentMismatch
    | ExecutionNonceInvalid
    | SeedReuse
    | ExecutionTermsMismatch
    | SettlementSigInvalid
    | SettlementChainBroken
    | SeedReuseInChain
    | TemporalWindowUnsafe
    | IdentityUnverified(phase: string)
    | UnauthorizedKey(phase: string)
    | BrokerIdentityUnverified
    | BrokerUnauthorizedKey

  /** A check with the issue that is reported when it says no. */
  datatype Test = Test(issue: Issue, outcome: Result<bool>)

  function OutcomesOf(tests: seq<Test>): Checks {
    seq(|tests|, i requires 0 <= i < |tests| => tests[i].outcome)
  }

  /** The issues of the tests that do not say yes, in order. */
  function Issues(tests: seq<Test>): seq<Issue> {
    if tests == [] then []
    else
      var last := tests[|tests| - 1];
      Issues(tests[..|tests| - 1]) + if last.outcome == Ok(true) then [] else [last.issue]
  }

  /** `_check_identity`. */
  function IdentityTest(t: Option<Table>, scope: string, signature: Dict, phase: string): Test {
    if t.None? then Test(IdentityUnverified(phase), Ok(false))
    else Test(UnauthorizedKey(phase),
              KeyAuthorized(t.value, scope, GetOr(Settlement.OrEmpty(signature), "pubkey", Str(""))))
  }

  function BrokerTest(t: Option<Table>, scope: string, s: Dict): Test {
    var issue := if t.None? then BrokerIdentityUnverified else BrokerUnauthorizedKey;
    match BrokerKey(s)
    case Err(error) => Test(issue, Err(error))
    case Ok(key) => Test(issue, if t.None? then Ok(false) else KeyAuthorized(t.value, BrokerScope(scope), key))
  }

  /** The tests of a commitment that need no registry. */
  function BindingTests(e: Primitives, c: PhaseRecord): seq<Test>
    requires e.d.Sound()
  {
    [Test(CommitmentSigInvalid, Ok(VerifyStatic(e, c.data, c.signature))),
     Test(CommitmentStateUnbound, Ok(Commitment.StateBinding(c.data))),
     Test(CommitmentQuantumUnbound, Commitment.QuantumBinding(c.data)),
     Test(CommitmentTemporalUnsafe, Commitment.TemporalSafety(c.data))]
  }

  function CommitmentTests(e: Primitives, t: Option<Table>, scope: string, c: PhaseRecord): seq<Test>
    requires e.d.Sound()
  {
    BindingTests(e, c) + [IdentityTest(t, scope, c.signature, "COMMITMENT")]
  }

  function LinkTests(c: PhaseRecord, x: PhaseRecord): seq<Test> {
    [Test(ExecutionCommitmentMismatch, Ok(Execution.ReferencesCommitment(x.data, c.signature))),
     Test(ExecutionNonceInvalid, Execution.NonceIncrement(GetOr(c.data, "nonce", Num(-1)), x.data)),
     Test(SeedReuse, Ok(!Same(GetOr(c.data, "quantum_seed_commitment", Str("")),
                              GetOr(x.data, "execution_quantum_seed_commitment", Str(""))))),
     Test(ExecutionTermsMismatch, Ok(Execution.MatchesTerms(GetOr(c.data, "trade_details", Obj(map[])),
                                                            GetOr(x.data, "execution_result", Obj(map[])))))]
  }

  function ExecutionTests(e: Primitives, t: Option<Table>, scope: string, c: Option<PhaseRecord>, x: PhaseRecord): seq<Test>
    requires e.d.Sound()
  {
    [Test(ExecutionSigInvalid, Ok(VerifyStatic(e, x.data, x.signature))),
     Test(ExecutionQuantumUnbound, Execution.QuantumBinding(x.data))]
    + (if c.Some? then LinkTests(c.value, x) else [])
    + [IdentityTest(t, scope, x.signature, "EXECUTION")]
  }

  /** The tests of a settlement that do not need the other phases. */
  function RestTests(t: Option<Table>, scope: string, s: PhaseRecord): seq<Test> {
    [Test(SeedReuseInChain, Settlement.AllSeedsIndependent(s.data)),
     Test(TemporalWindowUnsafe, Settlement.AllWindows(s.data)),
     IdentityTest(t, scope, s.signature, "SETTLEMENT"),
     BrokerTest(t, scope, s.data)]
  }

  function SettlementTests(e: Primitives, t: Option<Table>, scope: string,
                           c: Option<PhaseRecord>, x: Option<PhaseRecord>, s: PhaseRecord): seq<Test>
    requires e.d.Sound()
  {
    [Test(SettlementSigInvalid, Ok(VerifyStatic(e, s.data, s.signature)))]
    + (if c.Some? && x.Some?
       then [Test(SettlementChainBroken, Settlement.Chain(e, c.value.signature, x.value.signature, s.data))] else [])
    + RestTests(t, scope, s)
  }

  function FlowTests(e: Primitives, t: Option<Table>, scope: string, flow: Flow): seq<Test>
    requires e.d.Sound()
  {
    (if flow.commitment.Some? then CommitmentTests(e, t, scope, flow.commitment.value) else [])
    + (if flow.execution.Some? then ExecutionTests(e, t, scope, flow.commitment, flow.execution.value) else [])
    + (if flow.settlement.Some?
       then SettlementTests(e, t, scope, flow.commitment, flow.execution, flow.settlement.value) else [])
  }

  datatype Tampering = Tampering(orderId: string, tampered: bool, issues: seq<Issue>)

  lemma {:induction false} IssuesConcat(a: seq<Test>, b: seq<Test>)
    ensures Issues(a + b) == Issues(a) + Issues(b)
  {
    if b == [] {
      assert a + b == a;
    } else {
      var init := b[..|b| - 1];
      IssuesConcat(a, init);
      assert (a + b)[..|a + b| - 1] == a + init;
    }
  }

  /** No issue is reported exactly when every test says yes. */
  lemma {:induction false} NoIssues(tests: seq<Test>)
    ensures Issues(tests) == [] <==> Holds(OutcomesOf(tests))
  {
    if tests != [] {
      var init, last := tests[..|tests| - 1], tests[|tests| - 1];
      NoIssues(init);
      var all, some := OutcomesOf(tests), OutcomesOf(init);
      assert all == some + [last.outcome];
      if Holds(some) && last.outcome == Ok(true) {
        assert Holds(all);
      }
      if Holds(all) {
        assert all[|init|] == last.outcome;
        assert forall i :: 0 <= i < |some| ==> some[i] == all[i];
      }
    }
  }

  lemma EmptyTests()
    ensures Issues([]) == [] && !Raises(OutcomesOf([]))
  {
  }

  lemma RaisesConcat(a: seq<Test>, b: seq<Test>)
    ensures Raises(OutcomesOf(a + b)) <==> Raises(OutcomesOf(a)) || Raises(OutcomesOf(b))
  {
    assert OutcomesOf(a + b) == OutcomesOf(a) + OutcomesOf(b);
    BothLists(OutcomesOf(a), OutcomesOf(b));
  }

  /** The issue of one test. */
  function Said(test: Test): seq<Issue> {
    if test.outcome == Ok(true) then [] else [test.issue]
  }

  lemma OneTest(tests: seq<Test>, test: Test)
    ensures Issues(tests + [test]) == Issues(tests) + Said(test)
    ensures Raises(OutcomesOf(tests + [test])) <==> Raises(OutcomesOf(tests)) || test.outcome.Err?
  {
    assert (tests + [test])[..|tests|] == tests;
    assert OutcomesOf(tests + [test]) == OutcomesOf(tests) + [test.outcome];
    OneMore(OutcomesOf(tests), test.outcome);
  }

  lemma TwoTests(a: Test, b: Test)
    ensures Issues([a, b]) == Said(a) + Said(b)
    ensures Raises(OutcomesOf([a, b])) <==> a.outcome.Err? || b.outcome.Err?
  {
    hide Issues, Raises, OutcomesOf;
    EmptyTests();
    OneTest([], a);
    OneTest([a], b);
    assert [] + [a] == [a] && [a] + [b] == [a, b] && [] + Said(a) == Said(a);
  }

  lemma FourTests(a: Test, b: Test, c: Test, d: Test)
    ensures Issues([a, b, c, d]) == Said(a) + Said(b) + Said(c) + Said(d)
    ensures Raises(OutcomesOf([a, b, c, d])) <==> a.outcome.Err? || b.outcome.Err? || c.outcome.Err? || d.outcome.Err?
  {
    hide Issues, Raises, OutcomesOf, Said;
    TwoTests(a, b);
    OneTest([a, b], c);
    OneTest([a, b, c], d);
    assert [a, b] + [c] == [a, b, c] && [a, b, c] + [d] == [a, b, c, d];
  }

  method DetectBinding(e: Primitives, c: PhaseRecord) returns (r: Result<seq<Issue>>)
    requires e.d.Sound()
    ensures r.Ok? <==> !Raises(OutcomesOf(BindingTests(e, c)))
    ensures r.Ok? ==> r.value == Issues(BindingTests(e, c))
  {
    hide VerifyStatic, Commitment.StateBinding, Commitment.QuantumBinding, Commitment.TemporalSafety;
    hide Issues, Raises, OutcomesOf;
    var sigOk, stateOk := VerifyStatic(e, c.data, c.signature), Commitment.StateBinding(c.data);
    var quantum, temporal := Commitment.QuantumBinding(c.data), Commitment.TemporalSafety(c.data);
    FourTests(Test(CommitmentSigInvalid, Ok(sigOk)), Test(CommitmentStateUnbound, Ok(stateOk)),
              Test(CommitmentQuantumUnbound, quantum), Test(CommitmentTemporalUnsafe, temporal));
    var issues := [];
    if !sigOk { issues := issues + [CommitmentSigInvalid]; }
    if !stateOk { issues := issues + [CommitmentStateUnbound]; }
    var quantumOk :- quantum;
    if !quantumOk { issues := issues + [CommitmentQuantumUnbound]; }
    var temporalOk :- temporal;
    if !temporalOk { issues := issues + [CommitmentTemporalUnsafe]; }
    return Ok(issues);
  }

  method DetectCommitment(e: Primitives, t: Option<Table>, scope: string, c: PhaseRecord) returns (r: Result<seq<Issue>>)
    requires e.d.Sound()
    ensures r.Ok? <==> !Raises(OutcomesOf(CommitmentTests(e, t, scope, c)))
    ensures r.Ok? ==> r.value == Issues(CommitmentTests(e, t, scope, c))
  {
    hide BindingTests, IdentityTest, Issues, Raises, OutcomesOf;
    var identity := IdentityTest(t, scope, c.signature, "COMMITMENT");
    OneTest(BindingTests(e, c), identity);
    var issues :- DetectBinding(e, c);
    var identityOk :- identity.outcome;
    if !identityOk { issues := issues + [identity.issue]; }
    return Ok(issues);
  }

  /** The part of `detect_tampering` that relates an execution to its commitment. */
  method DetectLink(c: PhaseRecord, x: PhaseRecord) returns (r: Result<seq<Issue>>)
    ensures r.Ok? <==> !Raises(OutcomesOf(LinkTests(c, x)))
    ensures r.Ok? ==> r.value == Issues(LinkTests(c, x))
  {
    hide Execution.NonceIncrement, Execution.MatchesTerms, Execution.ReferencesCommitment, Same, GetOr;
    hide Issues, Raises, OutcomesOf;
    var refOk := Execution.ReferencesCommitment(x.data, c.signature);
    var nonce := Execution.NonceIncrement(GetOr(c.data, "nonce", Num(-1)), x.data);
    var seedsOk := !Same(GetOr(c.data, "quantum_seed_commitment", Str("")),
                         GetOr(x.data, "execution_quantum_seed_commitment", Str("")));
    var termsOk := Execution.MatchesTerms(GetOr(c.data, "trade_details", Obj(map[])),
                                          GetOr(x.data, "execution_result", Obj(map[])));
    FourTests(Test(ExecutionCommitmentMismatch, Ok(refOk)), Test(ExecutionNonceInvalid, nonce),
              Test(SeedReuse, Ok(seedsOk)), Test(ExecutionTermsMismatch, Ok(termsOk)));
    var issues := [];
    if !refOk { issues := issues + [ExecutionCommitmentMismatch]; }
    var nonceOk :- nonce;
    if !nonceOk { issues := issues + [ExecutionNonceInvalid]; }
    if !seedsOk { issues := issues + [SeedReuse]; }
    if !termsOk { issues := issues + [ExecutionTermsMismatch]; }
    return Ok(issues);
  }

  method DetectExecution(e: Primitives, t: Option<Table>, scope: string, c: Option<PhaseRecord>, x: PhaseRecord)
    returns (r: Result<seq<Issue>>)
    requires e.d.Sound()
    ensures r.Ok? <==> !Raises(OutcomesOf(ExecutionTests(e, t, scope, c, x)))
    ensures r.Ok? ==> r.value == Issues(ExecutionTests(e, t, scope, c, x))
  {
    hide VerifyStatic, KeyAuthorized, Execution.QuantumBinding, LinkTests, Issues, Raises, OutcomesOf;
    var sigOk := VerifyStatic(e, x.data, x.signature);
    var quantum := Execution.QuantumBinding(x.data);
    var identity := IdentityTest(t, scope, x.signature, "EXECUTION");
    ghost var front := [Test(ExecutionSigInvalid, Ok(sigOk)), Test(ExecutionQuantumUnbound, quantum)];
    ghost var link := if c.Some? then LinkTests(c.value, x) else [];
    TwoTests(front[0], front[1]);
    IssuesConcat(front, link);
    RaisesConcat(front, link);
    OneTest(front + link, identity);
    EmptyTests();
    assert ExecutionTests(e, t, scope, c, x) == front + link + [identity];
    var issues := [];
    if !sigOk { issues := issues + [ExecutionSigInvalid]; }
    var quantumOk :- quantum;
    if !quantumOk { issues := issues + [ExecutionQuantumUnbound]; }
    if c.Some? {
      var found :- DetectLink(c.value, x);
      issues := issues + found;
    }
    var identityOk :- identity.outcome;
    if !identityOk { issues := issues + [identity.issue]; }
    return Ok(issues);
  }

  lemma SettlementFront(a: Test, b: Test, linked: bool, rest: seq<Test>)
    requires !linked ==> b.outcome == Ok(true)
    ensures var all := [a] + (if linked then [b] else []) + rest;
            && Issues(all) == Said(a) + Said(b) + Issues(rest)
            && (Raises(OutcomesOf(all)) <==> a.outcome.Err? || b.outcome.Err? || Raises(OutcomesOf(rest)))
  {
    hide Issues, Raises, OutcomesOf;
    var front := [a] + if linked then [b] else [];
    EmptyTests();
    OneTest([], a);
    OneTest([a], b);
    IssuesConcat(front, rest);
    RaisesConcat(front, rest);
    assert [] + [a] == [a] && [a] + [] == [a];
    assert Issues(front) == Said(a) + Said(b);
  }

  method DetectSettlement(e: Primitives, t: Option<Table>, scope: string,
                          c: Option<PhaseRecord>, x: Option<PhaseRecord>, s: PhaseRecord)
    returns (r: Result<seq<Issue>>)
    requires e.d.Sound()
    ensures r.Ok? <==> !Raises(OutcomesOf(SettlementTests(e, t, scope, c, x, s)))
    ensures r.Ok? ==> r.value == Issues(SettlementTests(e, t, scope, c, x, s))
  {
    hide VerifyStatic, RestTests, Issues, Raises, OutcomesOf;
    hide Settlement.Chain, Settlement.AllSeedsIndependent, Settlement.AllWindows;
    var sigOk := VerifyStatic(e, s.data, s.signature);
    var chain := if c.Some? && x.Some?
                 then Settlement.Chain(e, c.value.signature, x.value.signature, s.data) else Ok(true);
    SettlementFront(Test(SettlementSigInvalid, Ok(sigOk)), Test(SettlementChainBroken, chain), c.Some? && x.Some?,
                    RestTests(t, scope, s));
    var issues := [];
    if !sigOk { issues := issues + [SettlementSigInvalid]; }
    var chainOk :- chain;
    if !chainOk { issues := issues + [SettlementChainBroken]; }
    var more :- DetectSettlementRest(t, scope, s);
    return Ok(issues + more);
  }

  method DetectSettlementRest(t: Option<Table>, scope: string, s: PhaseRecord) returns (r: Result<seq<Issue>>)
    ensures r.Ok? <==> !Raises(OutcomesOf(RestTests(t, scope, s)))
    ensures r.Ok? ==> r.value == Issues(RestTests(t, scope, s))
  {
    hide IdentityTest, BrokerTest, Issues, Raises, OutcomesOf, Settlement.AllSeedsIndependent, Settlement.AllWindows;
    var seeds, windows := Settlement.AllSeedsIndependent(s.data), Settlement.AllWindows(s.data);
    var identity, broker := IdentityTest(t, scope, s.signature, "SETTLEMENT"), BrokerTest(t, scope, s.data);
    FourTests(Test(SeedReuseInChain, seeds), Test(TemporalWindowUnsafe, windows), identity, broker);
    var issues := [];
    var seedsOk :- seeds;
    if !seedsOk { issues := issues + [SeedReuseInChain]; }
    var temporalOk :- windows;
    if !temporalOk { issues := issues + [TemporalWindowUnsafe]; }
    var identityOk :- identity.outcome;
    if !identityOk { issues := issues + [identity.issue]; }
    var brokerOk :- broker.outcome;
    if !brokerOk { issues := issues + [broker.issue]; }
    return Ok(issues);
  }

  /** `detect_tampering`. */
  method DetectTampering(e: Primitives, orderId: string, log: AuditLog, registry: AccountKeyRegistry?, accountId: Option<string>)
    returns (r: Result<Tampering>)
    requires e.d.Sound() && log.Valid()
    ensures var tests := FlowTests(e, TableOf(registry), Scope(orderId, accountId), ScanFlow(Listed(log.view.live), orderId));
            && (r.Ok? <==> !Raises(OutcomesOf(tests)))
            && (r.Ok? ==> r.value == Tampering(orderId, Issues(tests) != [], Issues(tests)))
  {
    hide CommitmentTests, ExecutionTests, SettlementTests, Issues, Raises, OutcomesOf, ScanFlow, TableOf, Scope;
    var read := log.GetTradeFlow(orderId);
    var t := CurrentTable(registry);
    var issues :- DetectFlow(e, t, Scope(orderId, accountId), read.value);
    return Ok(Tampering(orderId, |issues| > 0, issues));
  }

  method CurrentTable(registry: AccountKeyRegistry?) returns (t: Option<Table>)
    ensures t == TableOf(registry)
  {
    t := if registry == null then None else Some(registry.authorized);
  }

  method DetectFlow(e: Primitives, t: Option<Table>, scope: string, flow: Flow) returns (r: Result<seq<Issue>>)
    requires e.d.Sound()
    ensures r.Ok? <==> !Raises(OutcomesOf(FlowTests(e, t, scope, flow)))
    ensures r.Ok? ==> r.value == Issues(FlowTests(e, t, scope, flow))
  {
    hide CommitmentTests, ExecutionTests, SettlementTests, Issues, Raises, OutcomesOf;
    ghost var a := if flow.commitment.Some? then CommitmentTests(e, t, scope, flow.commitment.value) else [];
    ghost var b := if flow.execution.Some? then ExecutionTests(e, t, scope, flow.commitment, flow.execution.value) else [];
    ghost var d := if flow.settlement.Some?
                   then SettlementTests(e, t, scope, flow.commitment, flow.execution, flow.settlement.value) else [];
    IssuesConcat(a, b);
    IssuesConcat(a + b, d);
    RaisesConcat(a, b);
    RaisesConcat(a + b, d);
    EmptyTests();
    var issues: seq<Issue> := [];
    if flow.commitment.Some? {
      issues :- DetectCommitment(e, t, scope, flow.commitment.value);
    }
    if flow.execution.Some? {
      var found :- DetectExecution(e, t, scope, flow.commitment, flow.execution.value);
      issues := issues + found;
    }
    if flow.settlement.Some? {
      var found :- DetectSettlement(e, t, scope, flow.commitment, flow.execution, flow.settlement.value);
      issues := issues + found;
    }
    return Ok(issues);
  }

  // ----- agreement -----

  /** Both verifiers ask the same question about the signer's key. */
  lemma SameIdentity(t: Option<Table>, scope: string, signature: Dict, phase: string)
    ensures IdentityTest(t, scope, signature, phase).outcome == IdentityOk(t, scope, signature)
  {
  }

  lemma SameBroker(t: Option<Table>, scope: string, s: Dict)
    ensures BrokerTest(t, scope, s).outcome == BrokerOk(t, scope, s)
  {
  }

  /** A list of checks by position. */
  lemma HoldsList(tests: seq<Test>)
    ensures Holds(OutcomesOf(tests)) <==> forall i :: 0 <= i < |tests| ==> tests[i].outcome == Ok(true)
  {
    if Holds(OutcomesOf(tests)) {
      forall i | 0 <= i < |tests| ensures tests[i].outcome == Ok(true) {
        assert OutcomesOf(tests)[i] == Ok(true);
      }
    }
  }

  lemma CommitmentAgrees(e: Primitives, t: Option<Table>, scope: string, c: PhaseRecord)
    requires e.d.Sound()
    ensures OutcomesOf(CommitmentTests(e, t, scope, c)) == CommitmentChecks(e, t, scope, c)
  {
    hide VerifyStatic, IdentityTest, IdentityOk;
    hide Commitment.StateBinding, Commitment.QuantumBinding, Commitment.TemporalSafety;
    SameIdentity(t, scope, c.signature, "COMMITMENT");
  }

  /** The execution checks of the first verifier are those of the second and the key's own window,
      once the commitment has a nonce. */
  lemma ExecutionAgrees(e: Primitives, t: Option<Table>, scope: string, c: PhaseRecord, x: PhaseRecord)
    requires e.d.Sound() && c.data.Get("nonce").Some?
    ensures Holds(ExecutionChecks(e, t, scope, Some(c), x))
            <==> Holds(OutcomesOf(ExecutionTests(e, t, scope, Some(c), x))) && Execution.TemporalSafety(x.data) == Ok(true)
  {
    hide VerifyStatic, IdentityTest, IdentityOk, Execution.QuantumBinding, Execution.TemporalSafety;
    hide Execution.NonceIncrement, Execution.MatchesTerms, Execution.ReferencesCommitment, Same;
    SameIdentity(t, scope, x.signature, "EXECUTION");
    var tests, checks := ExecutionTests(e, t, scope, Some(c), x), ExecutionChecks(e, t, scope, Some(c), x);
    HoldsList(tests);
    assert checks[0] == tests[0].outcome && checks[1] == tests[1].outcome;
    assert checks[2] == Execution.TemporalSafety(x.data) && checks[3] == tests[6].outcome;
    assert checks[4] == tests[2].outcome && checks[5] == tests[3].outcome;
    assert checks[6] == tests[4].outcome && checks[7] == tests[5].outcome;
    assert |checks| == 8 && |tests| == 7;
  }

  lemma SettlementAgrees(e: Primitives, t: Option<Table>, scope: string, c: PhaseRecord, x: PhaseRecord, s: PhaseRecord)
    requires e.d.Sound()
    ensures Holds(SettlementChecks(e, t, scope, Some(c), Some(x), s))
            <==> Holds(OutcomesOf(SettlementTests(e, t, scope, Some(c), Some(x), s)))
  {
    hide VerifyStatic, IdentityTest, IdentityOk, BrokerTest, BrokerOk;
    hide Settlement.Chain, Settlement.AllSeedsIndependent, Settlement.AllWindows;
    SameIdentity(t, scope, s.signature, "SETTLEMENT");
    SameBroker(t, scope, s.data);
    var tests := SettlementTests(e, t, scope, Some(c), Some(x), s);
    var checks := SettlementChecks(e, t, scope, Some(c), Some(x), s);
    HoldsList(tests);
    assert checks[0] == tests[0].outcome && checks[1] == tests[4].outcome && checks[2] == tests[5].outcome;
    assert checks[3] == tests[1].outcome && checks[4] == tests[2].outcome && checks[5] == tests[3].outcome;
    assert |checks| == 6 && |tests| == 6;
  }

  lemma HoldsConcat(a: seq<Test>, b: seq<Test>)
    ensures Holds(OutcomesOf(a + b)) <==> Holds(OutcomesOf(a)) && Holds(OutcomesOf(b))
  {
    assert OutcomesOf(a + b) == OutcomesOf(a) + OutcomesOf(b);
    BothLists(OutcomesOf(a), OutcomesOf(b));
  }

  lemma NonceNeeded(e: Primitives, t: Option<Table>, scope: string, c: PhaseRecord)
    requires e.d.Sound() && c.data.Get("nonce").None?
    ensures !Holds(CommitmentChecks(e, t, scope, c))
  {
    assert CommitmentChecks(e, t, scope, c)[1] == Ok(false);
  }

  /** The two verifiers agree: a flow is certified exactly when all three phases are there, no
      tampering is reported, and the execution's own window is safe, which only the first asks. */
  lemma VerifiersAgree(e: Primitives, t: Option<Table>, scope: string, flow: Flow)
    requires e.d.Sound()
    ensures ChainValid(e, t, scope, flow)
            <==> && AllPresent(flow)
                 && Issues(FlowTests(e, t, scope, flow)) == []
                 && Execution.TemporalSafety(flow.execution.value.data) == Ok(true)
  {
    hide CommitmentTests, CommitmentChecks, ExecutionTests, ExecutionChecks, SettlementTests, SettlementChecks;
    hide Execution.TemporalSafety, Holds, OutcomesOf, Issues;
    NoIssues(FlowTests(e, t, scope, flow));
    if AllPresent(flow) {
      var c, x, s := flow.commitment.value, flow.execution.value, flow.settlement.value;
      var a, b := CommitmentTests(e, t, scope, c), ExecutionTests(e, t, scope, Some(c), x);
      HoldsConcat(a, b);
      HoldsConcat(a + b, SettlementTests(e, t, scope, Some(c), Some(x), s));
      CommitmentAgrees(e, t, scope, c);
      SettlementAgrees(e, t, scope, c, x, s);
      if c.data.Get("nonce").Some? {
        ExecutionAgrees(e, t, scope, c, x);
      } else {
        NonceNeeded(e, t, scope, c);
      }
    }
  }

  lemma LinkCompletion(c: PhaseRecord, x: PhaseRecord)
    ensures Raises(OutcomesOf(LinkTests(c, x))) <==> Raises(LinkChecks(c, x, 0))
  {
    hide Execution.MatchesTerms, Execution.ReferencesCommitment, Same;
    var checks, tests := LinkChecks(c, x, 0), LinkTests(c, x);
    FourChecks(checks[0], checks[1], checks[2], checks[3]);
    FourTests(tests[0], tests[1], tests[2], tests[3]);
    assert checks == [checks[0], checks[1], checks[2], checks[3]];
    assert tests == [tests[0], tests[1], tests[2], tests[3]];
  }

  lemma ExecutionCompletion(e: Primitives, t: Option<Table>, scope: string, c: Option<PhaseRecord>, x: PhaseRecord)
    requires e.d.Sound()
    ensures Raises(ExecutionChecks(e, t, scope, c, x))
            <==> Raises(OutcomesOf(ExecutionTests(e, t, scope, c, x))) || Execution.TemporalSafety(x.data).Err?
  {
    hide VerifyStatic, IdentityTest, IdentityOk, LinkChecks, LinkTests, Raises, OutcomesOf;
    hide Execution.QuantumBinding, Execution.TemporalSafety;
    SameIdentity(t, scope, x.signature, "EXECUTION");
    var sig, identity := Ok(VerifyStatic(e, x.data, x.signature)), IdentityTest(t, scope, x.signature, "EXECUTION");
    var quantum := Execution.QuantumBinding(x.data);
    var checks := if c.Some? then LinkChecks(c.value, x, 0) else [];
    var tests := if c.Some? then LinkTests(c.value, x) else [];
    if c.Some? { LinkCompletion(c.value, x); }
    NothingAsked();
    EmptyTests();
    FourChecks(sig, quantum, Execution.TemporalSafety(x.data), IdentityOk(t, scope, x.signature));
    BothLists([sig, quantum, Execution.TemporalSafety(x.data), IdentityOk(t, scope, x.signature)], checks);
    var front := [Test(ExecutionSigInvalid, sig), Test(ExecutionQuantumUnbound, quantum)];
    TwoTests(front[0], front[1]);
    RaisesConcat(front, tests);
    OneTest(front + tests, identity);
  }

  lemma SettlementCompletion(
    e: Primitives, t: Option<Table>, scope: string, c: Option<PhaseRecord>, x: Option<PhaseRecord>, s: PhaseRecord)
    requires e.d.Sound()
    ensures Raises(SettlementChecks(e, t, scope, c, x, s)) <==> Raises(OutcomesOf(SettlementTests(e, t, scope, c, x, s)))
  {
    hide VerifyStatic, IdentityTest, IdentityOk, BrokerTest, BrokerOk, Raises, OutcomesOf, Holds, Issues;
    hide Settlement.Chain, Settlement.AllSeedsIndependent, Settlement.AllWindows;
    SameIdentity(t, scope, s.signature, "SETTLEMENT");
    SameBroker(t, scope, s.data);
    var linked := c.Some? && x.Some?;
    var sig := Ok(VerifyStatic(e, s.data, s.signature));
    var chain := if linked then Settlement.Chain(e, c.value.signature, x.value.signature, s.data) else Ok(true);
    var seeds, windows := Settlement.AllSeedsIndependent(s.data), Settlement.AllWindows(s.data);
    SettlementList(sig, IdentityOk(t, scope, s.signature), BrokerOk(t, scope, s.data), chain, linked, seeds, windows);
    var rest := RestTests(t, scope, s);
    SettlementFront(Test(SettlementSigInvalid, sig), Test(SettlementChainBroken, chain), linked, rest);
    FourTests(rest[0], rest[1], rest[2], rest[3]);
  }

  /** `verify_trade_flow` returns exactly when `detect_tampering` does and the window of the
      execution, if there is one, can be compared. */
  lemma CompletionAgrees(e: Primitives, t: Option<Table>, scope: string, flow: Flow)
    requires e.d.Sound()
    ensures Completes(e, t, scope, flow)
            <==> && !Raises(OutcomesOf(FlowTests(e, t, scope, flow)))
                 && (flow.execution.Some? ==> Execution.TemporalSafety(flow.execution.value.data).Ok?)
  {
    hide CommitmentTests, ExecutionTests, SettlementTests, CommitmentChecks, ExecutionChecks, SettlementChecks;
    hide Raises, OutcomesOf, Execution.TemporalSafety;
    var a := if flow.commitment.Some? then CommitmentTests(e, t, scope, flow.commitment.value) else [];
    var b := if flow.execution.Some? then ExecutionTests(e, t, scope, flow.commitment, flow.execution.value) else [];
    var d := if flow.settlement.Some?
             then SettlementTests(e, t, scope, flow.commitment, flow.execution, flow.settlement.value) else [];
    EmptyTests();
    RaisesConcat(a, b);
    RaisesConcat(a + b, d);
    if flow.commitment.Some? { CommitmentAgrees(e, t, scope, flow.commitment.value); }
    if flow.execution.Some? { ExecutionCompletion(e, t, scope, flow.commitment, flow.execution.value); }
    if flow.settlement.Some? {
      SettlementCompletion(e, t, scope, flow.commitment, flow.execution, flow.settlement.value);
    }
  }

  // ----- what a certificate means -----

  /** The key in an envelope is registered for the scope. */
  ghost predicate SignerRegistered(t: Option<Table>, scope: string, signature: Json) {
    t.Some? && match signature.Get("pubkey")
               case Some(Str(key)) => Authorized(t.value, scope, key)
               case _ => false
  }

  /** The window closes before the attack could begin. */
  ghost predicate ClosesInTime(window: Json) {
    match (window.Get("expires_at"), window.Get("shor_earliest_attack"))
    case (Some(expiresAt), Some(attack)) => Before(expiresAt, attack)
    case _ => false
  }

  /** A smaller number, or a text in front of another. */
  ghost predicate Before(a: Json, b: Json) {
    || (NumOf(a).Some? && NumOf(b).Some? && 0 < NumOf(b).value - NumOf(a).value)
    || (a.Str? && b.Str? && a != b && AtMost(a.s, b.s))
  }

  lemma LessIsBefore(a: Json, b: Json)
    ensures Less(a, b) == Ok(true) <==> Before(a, b)
  {
    LessMeans(a, b);
  }

  lemma IdentityMeans(t: Option<Table>, scope: string, signature: Dict)
    requires IdentityOk(t, scope, signature) == Ok(true)
    ensures SignerRegistered(t, scope, signature)
  {
  }

  lemma BrokerMeans(t: Option<Table>, scope: string, s: Dict)
    requires BrokerOk(t, scope, s) == Ok(true)
    ensures var signature := Settlement.OrEmpty(GetOr(s, "broker_signature", Null));
            signature.Obj? && SignerRegistered(t, BrokerScope(scope), signature)
  {
  }

  /** The chain check holds exactly for a settlement that names the two envelopes, seals them with its
      merkle hash and carries a broker's signature over the attestation. */
  lemma ChainMeans(e: Primitives, c: Dict, x: Dict, s: Dict)
    requires e.d.Sound()
    ensures Settlement.Chain(e, c, x, s) == Ok(true)
            <==> && Same(GetOr(s, "commitment_sig", Null), c) && Same(GetOr(s, "execution_sig", Null), x)
                 && exists ack :: Acknowledged(e, c, x, s, ack)
  {
    hide Settlement.FlowMerkle, VerifyStatic, Same;
    var ack := GetOr(s, "broker_settlement_sig", Str(""));
    if ack.Str? { assert ack == Str(ack.s); }
    if Settlement.Chain(e, c, x, s) == Ok(true) { assert Acknowledged(e, c, x, s, ack.s); }
  }

  ghost predicate Acknowledged(e: Primitives, c: Dict, x: Dict, s: Dict, ack: string)
    requires e.d.Sound()
  {
    var signature := GetOr(s, "broker_signature", Null);
    && GetOr(s, "broker_settlement_sig", Str("")) == Str(ack)
    && s.Get("flow_merkle_hash") == Some(Str(Settlement.FlowMerkle(e, c, x, ack, signature)))
    && VerifyStatic(e, Settlement.BrokerAttestation(GetOr(s, "order_id", Null), c, x, Str(ack)),
                    Settlement.OrEmpty(signature))
  }

  lemma NonceMeans(nonce: Json, x: Dict)
    requires Execution.NonceIncrement(nonce, x) == Ok(true)
    ensures NumOf(nonce).Some? && NumOf(GetOr(x, "nonce_after", Null)) == Some(NumOf(nonce).value + 1)
  {
    var after := GetOr(x, "nonce_after", Null);
    assert Numeric(after).Num? ==> after.Num? || after.Bool?;
  }

  /** Three values that are pairwise different in Python's sense. */
  ghost predicate Differ(a: Json, b: Json, c: Json) {
    !Same(a, b) && !Same(a, c) && !Same(b, c)
  }

  /** The seed hashes that a settlement claims for the first two phases, and its own, differ. */
  ghost predicate ClaimedSeedsDiffer(s: Dict) {
    Differ(GetOr(s, "commitment_quantum_seed_commitment", Null),
           GetOr(s, "execution_quantum_seed_commitment", Null),
           GetOr(s, "settlement_quantum_seed_commitment", Null))
  }

  /** The three windows a settlement states close before the attack could begin. */
  ghost predicate StatedWindowsClose(s: Dict) {
    && ClosesInTime(GetOr(s, "commitment_temporal_window", Null))
    && ClosesInTime(GetOr(s, "execution_temporal_window", Null))
    && ClosesInTime(GetOr(s, "settlement_temporal_window", Null))
  }

  /** Every envelope verifies over its payload under a key registered for the scope, and the broker's key
      is registered for the broker's. */
  ghost predicate WellSigned(e: Primitives, t: Option<Table>, scope: string, c: PhaseRecord, x: PhaseRecord, s: PhaseRecord)
    requires e.d.Sound()
  {
    && VerifyStatic(e, c.data, c.signature) && SignerRegistered(t, scope, c.signature)
    && VerifyStatic(e, x.data, x.signature) && SignerRegistered(t, scope, x.signature)
    && VerifyStatic(e, s.data, s.signature) && SignerRegistered(t, scope, s.signature)
    && SignerRegistered(t, BrokerScope(scope), GetOr(s.data, "broker_signature", Null))
  }

  /** Execution and settlement refer to the envelopes of the earlier phases, the broker acknowledged them,
      the nonce is the next one and the fill keeps the terms. */
  ghost predicate WellLinked(e: Primitives, c: PhaseRecord, x: PhaseRecord, s: PhaseRecord)
    requires e.d.Sound()
  {
    && Refers(GetOr(x.data, "commitment_sig", Null), c.signature)
    && Refers(GetOr(s.data, "commitment_sig", Null), c.signature)
    && Refers(GetOr(s.data, "execution_sig", Null), x.signature)
    && (exists ack :: Acknowledged(e, c.signature, x.signature, s.data, ack))
    && NumOf(GetOr(c.data, "nonce", Null)).Some?
    && NumOf(GetOr(x.data, "nonce_after", Null)) == Some(NumOf(GetOr(c.data, "nonce", Null)).value + 1)
    && Execution.WithinTerms(GetOr(c.data, "trade_details", Null), GetOr(x.data, "execution_result", Null))
  }

  /** The hashes have their length, commitment and execution have different seeds and windows that close
      before the attack could begin, and so do the three seeds and windows that the settlement states. */
  ghost predicate WellSeeded(c: PhaseRecord, x: PhaseRecord, s: PhaseRecord) {
    && StateStated(c.data) && SeedStated(c.data) && ExecutionStated(x.data)
    && !Same(OwnSeed(c.data, "quantum_seed_commitment"), OwnSeed(x.data, "execution_quantum_seed_commitment"))
    && ClosesInTime(GetOr(c.data, "key_temporal_window", Null))
    && ClosesInTime(GetOr(x.data, "key_temporal_window", Null))
    && ClaimedSeedsDiffer(s.data) && StatedWindowsClose(s.data)
  }

  /** What a certified flow guarantees. */
  lemma CertifiedMeans(e: Primitives, t: Option<Table>, scope: string, flow: Flow)
    requires e.d.Sound() && ChainValid(e, t, scope, flow)
    ensures AllPresent(flow)
    ensures WellSigned(e, t, scope, flow.commitment.value, flow.execution.value, flow.settlement.value)
    ensures WellLinked(e, flow.commitment.value, flow.execution.value, flow.settlement.value)
    ensures WellSeeded(flow.commitment.value, flow.execution.value, flow.settlement.value)
  {
    hide WellSigned, WellLinked, WellSeeded;
    CertifiedSigned(e, t, scope, flow);
    CertifiedLinked(e, t, scope, flow);
    CertifiedSeeded(e, t, scope, flow);
  }

  lemma CertifiedSigned(e: Primitives, t: Option<Table>, scope: string, flow: Flow)
    requires e.d.Sound() && ChainValid(e, t, scope, flow)
    ensures WellSigned(e, t, scope, flow.commitment.value, flow.execution.value, flow.settlement.value)
  {
    hide VerifyStatic, IdentityOk, BrokerOk, SignerRegistered, LinkChecks, Settlement.Chain;
    hide Settlement.AllSeedsIndependent, Settlement.AllWindows, Commitment.QuantumBinding, Commitment.StateBinding;
    hide Execution.QuantumBinding, Execution.TemporalSafety, Commitment.TemporalSafety;
    var c, x, s := flow.commitment.value, flow.execution.value, flow.settlement.value;
    var cs, xs := CommitmentChecks(e, t, scope, c), ExecutionChecks(e, t, scope, flow.commitment, x);
    var ss := SettlementChecks(e, t, scope, flow.commitment, flow.execution, s);
    assert cs[0] == cs[4] == xs[0] == xs[3] == ss[0] == ss[1] == ss[2] == Ok(true);
    IdentityMeans(t, scope, c.signature);
    IdentityMeans(t, scope, x.signature);
    IdentityMeans(t, scope, s.signature);
    BrokerMeans(t, scope, s.data);
    BrokerPresent(t, BrokerScope(scope), GetOr(s.data, "broker_signature", Null));
  }

  lemma CertifiedLinked(e: Primitives, t: Option<Table>, scope: string, flow: Flow)
    requires e.d.Sound() && ChainValid(e, t, scope, flow)
    ensures WellLinked(e, flow.commitment.value, flow.execution.value, flow.settlement.value)
  {
    hide VerifyStatic, IdentityOk, BrokerOk, Same, Execution.MatchesTerms, Execution.NonceIncrement, Settlement.Chain;
    hide Settlement.AllSeedsIndependent, Settlement.AllWindows, Commitment.QuantumBinding, Acknowledged;
    hide Execution.QuantumBinding, Execution.TemporalSafety, Commitment.TemporalSafety, Execution.WithinTerms, Refers;
    var c, x, s := flow.commitment.value, flow.execution.value, flow.settlement.value;
    var cs, xs := CommitmentChecks(e, t, scope, c), ExecutionChecks(e, t, scope, flow.commitment, x);
    var ss := SettlementChecks(e, t, scope, flow.commitment, flow.execution, s);
    assert cs[0] == cs[1] == xs[0] == xs[4] == xs[5] == xs[7] == ss[3] == Ok(true);
    assert c.data.Get("nonce").Some?;
    NonceMeans(GetOr(c.data, "nonce", Num(0)), x.data);
    ChainMeans(e, c.signature, x.signature, s.data);
    TermsMean(c.data, x.data);
    SameEnvelope(e, GetOr(x.data, "commitment_sig", Null), c.data, c.signature);
    SameEnvelope(e, GetOr(s.data, "commitment_sig", Null), c.data, c.signature);
    SameEnvelope(e, GetOr(s.data, "execution_sig", Null), x.data, x.signature);
  }

  lemma CertifiedSeeded(e: Primitives, t: Option<Table>, scope: string, flow: Flow)
    requires e.d.Sound() && ChainValid(e, t, scope, flow)
    ensures WellSeeded(flow.commitment.value, flow.execution.value, flow.settlement.value)
  {
    hide VerifyStatic, IdentityOk, BrokerOk, Same, Execution.MatchesTerms, Execution.NonceIncrement, Settlement.Chain;
    hide Settlement.AllSeedsIndependent, Settlement.AllWindows, Commitment.QuantumBinding, Commitment.StateBinding;
    hide Execution.QuantumBinding, Execution.TemporalSafety, Commitment.TemporalSafety, ClosesInTime;
    hide ClaimedSeedsDiffer, StatedWindowsClose, StateStated, SeedStated, ExecutionStated;
    var c, x, s := flow.commitment.value, flow.execution.value, flow.settlement.value;
    var cs, xs := CommitmentChecks(e, t, scope, c), ExecutionChecks(e, t, scope, flow.commitment, x);
    var ss := SettlementChecks(e, t, scope, flow.commitment, flow.execution, s);
    assert cs[1] == cs[2] == cs[3] == xs[1] == xs[2] == xs[6] == ss[4] == ss[5] == Ok(true);
    CommitmentWindow(c.data);
    ExecutionWindow(x.data);
    SettlementSeedsMean(s.data);
    SettlementWindowsMean(s.data);
    BindingStated(c.data);
    ExecutionSeedStated(x.data);
  }

  /** A reference to an envelope has its very texts. */
  ghost predicate Refers(reference: Json, signature: Dict) {
    && reference.Get("r") == signature.Get("r") && reference.Get("r").Some?
    && reference.Get("s") == signature.Get("s") && reference.Get("s").Some?
    && reference.Get("pubkey") == signature.Get("pubkey") && reference.Get("pubkey").Some?
  }

  lemma SameEnvelope(e: Primitives, reference: Json, data: Json, signature: Dict)
    requires e.d.Sound() && Same(reference, signature) && VerifyStatic(e, data, signature)
    ensures Refers(reference, signature)
  {
    hide Same, DecodeKey, EcdsaVerify, IntBase16;
    SameText(reference, signature, "r");
    SameText(reference, signature, "s");
    SameText(reference, signature, "pubkey");
  }

  /** The commitment states a hash of 64 characters for the account state. */
  ghost predicate StateStated(c: Dict) {
    match c.Get("account_state_hash")
    case Some(Str(hash)) => |hash| == 64
    case _ => false
  }

  /** A phase states a seed hash of length 64. */
  ghost predicate SeedHashLong(data: Dict, key: string) {
    match data.Get(key)
    case Some(Str(hash)) => |hash| == 64
    case Some(Arr(items)) => |items| == 64
    case Some(Obj(fields)) => |fields| == 64
    case _ => false
  }

  /** The commitment states a seed hash, one of the two methods, and a window that opens before it closes. */
  ghost predicate SeedStated(c: Dict) {
    && SeedHashLong(c, "quantum_seed_commitment")
    && (c.Get("seed_measurement_method") == Some(Str("CSPRNG"))
        || c.Get("seed_measurement_method") == Some(Str("OS_URANDOM")))
    && var window := GetOr(c, "key_temporal_window", Null);
       match (window.Get("created_at"), window.Get("expires_at"))
       case (Some(created), Some(expires)) => Before(created, expires)
       case _ => false
  }

  lemma BindingStated(c: Dict)
    requires Commitment.StateBinding(c) && Commitment.QuantumBinding(c) == Ok(true)
    ensures StateStated(c) && SeedStated(c)
  {
    hide Less, Before;
    var window := GetOr(c, "key_temporal_window", Obj(map[]));
    LessIsBefore(window.Get("created_at").value, window.Get("expires_at").value);
  }

  /** The execution states a seed hash and a window with both ends. */
  ghost predicate ExecutionStated(x: Dict) {
    && SeedHashLong(x, "execution_quantum_seed_commitment")
    && GetOr(x, "key_temporal_window", Null).Get("created_at").Some?
    && GetOr(x, "key_temporal_window", Null).Get("expires_at").Some?
  }

  lemma ExecutionSeedStated(x: Dict)
    requires Execution.QuantumBinding(x) == Ok(true)
    ensures ExecutionStated(x)
  {
  }

  lemma TermsMean(c: Dict, x: Dict)
    requires Execution.MatchesTerms(GetOr(c, "trade_details", Obj(map[])), GetOr(x, "execution_result", Obj(map[])))
    ensures Execution.WithinTerms(GetOr(c, "trade_details", Null), GetOr(x, "execution_result", Null))
  {
    Execution.TermsMeaning(GetOr(c, "trade_details", Obj(map[])), GetOr(x, "execution_result", Obj(map[])));
  }

  lemma SettlementSeedsMean(s: Dict)
    requires Settlement.AllSeedsIndependent(s) == Ok(true)
    ensures ClaimedSeedsDiffer(s)
  {
    hide Same;
  }

  lemma StatedWindow(window: Json)
    requires Settlement.WindowSafe(window) == Ok(true)
    ensures ClosesInTime(window)
  {
    hide Less, Before;
    WindowBefore(window);
  }

  lemma SettlementWindowsMean(s: Dict)
    requires Settlement.AllWindows(s) == Ok(true)
    ensures StatedWindowsClose(s)
  {
    hide ClosesInTime, Settlement.WindowSafe;
    StatedWindow(GetOr(s, "commitment_temporal_window", Obj(map[])));
    StatedWindow(GetOr(s, "execution_temporal_window", Obj(map[])));
    StatedWindow(GetOr(s, "settlement_temporal_window", Obj(map[])));
    NoWindow();
  }

  lemma NoWindow()
    ensures !ClosesInTime(Obj(map[])) && !ClosesInTime(Null)
  {
  }

  // ----- are the seeds of a certified flow independent? -----

  /** The seed hash that a phase states for its own key. */
  function OwnSeed(data: Dict, key: string): Json {
    GetOr(data, key, Str(""))
  }

  /** The three phases were signed under different seed hashes, which is what forward secrecy asks. */
  ghost predicate SeedsIndependent(flow: Flow)
    requires AllPresent(flow)
  {
    Differ(OwnSeed(flow.commitment.value.data, "quantum_seed_commitment"),
           OwnSeed(flow.execution.value.data, "execution_quantum_seed_commitment"),
           OwnSeed(flow.settlement.value.data, "settlement_quantum_seed_commitment"))
  }

  /** The settlement tells the truth about the seed hash of the commitment. */
  ghost predicate CommitClaimTrue(flow: Flow)
    requires AllPresent(flow)
  {
    Same(GetOr(flow.settlement.value.data, "commitment_quantum_seed_commitment", Null),
         OwnSeed(flow.commitment.value.data, "quantum_seed_commitment"))
  }

  ghost predicate ExecuteClaimTrue(flow: Flow)
    requires AllPresent(flow)
  {
    Same(GetOr(flow.settlement.value.data, "execution_quantum_seed_commitment", Null),
         OwnSeed(flow.execution.value.data, "execution_quantum_seed_commitment"))
  }

  /** The verifiers compare the settlement's seed only with hashes that the settlement itself claims. So
      in a certified flow a true claim about a phase separates the settlement's seed from the seed of
      that phase, and a settlement that reuses one makes a false claim about just that phase. With
      both claims true, the three seeds are independent. */
  lemma ClaimsSeparateSeeds(e: Primitives, t: Option<Table>, scope: string, flow: Flow)
    requires e.d.Sound() && ChainValid(e, t, scope, flow)
    ensures var own := OwnSeed(flow.settlement.value.data, "settlement_quantum_seed_commitment");
            && (CommitClaimTrue(flow) ==> !Same(OwnSeed(flow.commitment.value.data, "quantum_seed_commitment"), own))
            && (ExecuteClaimTrue(flow) ==>
                  !Same(OwnSeed(flow.execution.value.data, "execution_quantum_seed_commitment"), own))
            && (SeedsIndependent(flow)
                <==> !Same(OwnSeed(flow.commitment.value.data, "quantum_seed_commitment"), own)
                     && !Same(OwnSeed(flow.execution.value.data, "execution_quantum_seed_commitment"), own))
    ensures CommitClaimTrue(flow) && ExecuteClaimTrue(flow) ==> SeedsIndependent(flow)
  {
    hide ChainValid, Numeric;
    CertifiedSeeds(e, t, scope, flow);
  }

  lemma CertifiedSeeds(e: Primitives, t: Option<Table>, scope: string, flow: Flow)
    requires e.d.Sound() && ChainValid(e, t, scope, flow)
    ensures AllPresent(flow)
    ensures !Same(OwnSeed(flow.commitment.value.data, "quantum_seed_commitment"),
                  OwnSeed(flow.execution.value.data, "execution_quantum_seed_commitment"))
    ensures ClaimedSeedsDiffer(flow.settlement.value.data)
    ensures OwnSeed(flow.settlement.value.data, "settlement_quantum_seed_commitment")
         == GetOr(flow.settlement.value.data, "settlement_quantum_seed_commitment", Null)
  {
    hide VerifyStatic, IdentityOk, BrokerOk, Numeric, Settlement.Chain, Settlement.AllWindows;
    hide Execution.MatchesTerms, Execution.NonceIncrement, Execution.QuantumBinding, Execution.TemporalSafety;
    hide CommitmentChecks;
    var s := flow.settlement.value.data;
    var xs := ExecutionChecks(e, t, scope, flow.commitment, flow.execution.value);
    var ss := SettlementChecks(e, t, scope, flow.commitment, flow.execution, flow.settlement.value);
    assert xs[6] == Ok(true) && ss[4] == Ok(true);
    SettlementSeedsMean(s);
  }

  lemma BrokerPresent(t: Option<Table>, scope: string, signature: Json)
    requires SignerRegistered(t, scope, Settlement.OrEmpty(signature))
    ensures SignerRegistered(t, scope, signature)
  {
  }

  lemma CommitmentWindow(c: Dict)
    requires Commitment.TemporalSafety(c) == Ok(true)
    ensures ClosesInTime(GetOr(c, "key_temporal_window", Null))
  {
    hide Less, Before;
    WindowBefore(GetOr(c, "key_temporal_window", Null));
  }

  lemma ExecutionWindow(x: Dict)
    requires Execution.TemporalSafety(x) == Ok(true)
    ensures ClosesInTime(GetOr(x, "key_temporal_window", Null))
  {
    hide Less, Before;
    WindowBefore(GetOr(x, "key_temporal_window", Null));
  }

  lemma WindowBefore(window: Json)
    ensures window.Get("expires_at").Some? && window.Get("shor_earliest_attack").Some? ==>
              (ClosesInTime(window)
               <==> Less(window.Get("expires_at").value, window.Get("shor_earliest_attack").value) == Ok(true))
  {
    hide Less, Before;
    if window.Get("expires_at").Some? && window.Get("shor_earliest_attack").Some? {
      LessIsBefore(window.Get("expires_at").value, window.Get("shor_earliest_attack").value);
    }
  }

  // ----- when each issue is reported -----

  /** The key of a phase is not registered: without a registry it cannot be. */
  ghost predicate KeyIssue(t: Option<Table>, scope: string, signature: Dict, phase: string, issue: Issue) {
    !SignerRegistered(t, scope, signature)
    && issue == if t == None then IdentityUnverified(phase) else UnauthorizedKey(phase)
  }

  ghost predicate BrokerKeyIssue(t: Option<Table>, scope: string, s: Dict, issue: Issue) {
    !SignerRegistered(t, BrokerScope(scope), GetOr(s, "broker_signature", Null))
    && issue == if t == None then BrokerIdentityUnverified else BrokerUnauthorizedKey
  }

  /** What an issue says of a commitment. */
  ghost predicate CommitmentIssue(e: Primitives, t: Option<Table>, scope: string, c: PhaseRecord, issue: Issue)
    requires e.d.Sound()
  {
    BindingIssue(e, c, issue) || KeyIssue(t, scope, c.signature, "COMMITMENT", issue)
  }

  ghost predicate BindingIssue(e: Primitives, c: PhaseRecord, issue: Issue)
    requires e.d.Sound()
  {
    match issue
    case CommitmentSigInvalid => !VerifyStatic(e, c.data, c.signature)
    case CommitmentStateUnbound => !Commitment.StateBinding(c.data)
    case CommitmentQuantumUnbound => Commitment.QuantumBinding(c.data) == Ok(false)
    case CommitmentTemporalUnsafe => Commitment.TemporalSafety(c.data) == Ok(false)
    case _ => false
  }

  /** What an issue says of an execution and its commitment, if that is there. */
  ghost predicate ExecutionIssue(e: Primitives, t: Option<Table>, scope: string, c: Option<PhaseRecord>, x: PhaseRecord, issue: Issue)
    requires e.d.Sound()
  {
    || (issue.ExecutionSigInvalid? && !VerifyStatic(e, x.data, x.signature))
    || (issue.ExecutionQuantumUnbound? && Execution.QuantumBinding(x.data) == Ok(false))
    || (c.Some? && LinkIssue(c.value, x, issue))
    || KeyIssue(t, scope, x.signature, "EXECUTION", issue)
  }

  ghost predicate LinkIssue(c: PhaseRecord, x: PhaseRecord, issue: Issue) {
    match issue
    case ExecutionCommitmentMismatch => !Same(GetOr(x.data, "commitment_sig", Null), c.signature)
    case ExecutionNonceInvalid => !NextNonce(c.data, x.data)
    case SeedReuse => Same(OwnSeed(c.data, "quantum_seed_commitment"),
                           OwnSeed(x.data, "execution_quantum_seed_commitment"))
    case ExecutionTermsMismatch => !Execution.WithinTerms(GetOr(c.data, "trade_details", Obj(map[])),
                                                          GetOr(x.data, "execution_result", Obj(map[])))
    case _ => false
  }

  /** The execution has the nonce after the commitment's, or after -1 when that has none. */
  ghost predicate NextNonce(c: Dict, x: Dict) {
    match (NumOf(GetOr(c, "nonce", Num(-1))), NumOf(GetOr(x, "nonce_after", Null)))
    case (Some(before), Some(after)) => after - before == 1
    case _ => false
  }

  /** What an issue says of a settlement and the earlier phases, if they are there. */
  ghost predicate SettlementIssue(e: Primitives, t: Option<Table>, scope: string,
                                  c: Option<PhaseRecord>, x: Option<PhaseRecord>, s: PhaseRecord, issue: Issue)
    requires e.d.Sound()
  {
    || (issue.SettlementSigInvalid? && !VerifyStatic(e, s.data, s.signature))
    || (issue.SettlementChainBroken? && c.Some? && x.Some?
        && Settlement.Chain(e, c.value.signature, x.value.signature, s.data) == Ok(false))
    || (issue.SeedReuseInChain? && Settlement.AllSeedsIndependent(s.data) == Ok(false))
    || (issue.TemporalWindowUnsafe? && Settlement.AllWindows(s.data) == Ok(false))
    || KeyIssue(t, scope, s.signature, "SETTLEMENT", issue)
    || BrokerKeyIssue(t, scope, s.data, issue)
  }

  /** A test reports an issue. */
  predicate Says(test: Test, issue: Issue) {
    test.issue == issue && test.outcome != Ok(true)
  }

  lemma FourSay(a: Test, b: Test, c: Test, d: Test, issue: Issue)
    ensures issue in Issues([a, b, c, d]) <==> Says(a, issue) || Says(b, issue) || Says(c, issue) || Says(d, issue)
  {
    hide Issues;
    FourTests(a, b, c, d);
  }

  lemma TwoSay(a: Test, b: Test, issue: Issue)
    ensures issue in Issues([a, b]) <==> Says(a, issue) || Says(b, issue)
  {
    hide Issues;
    TwoTests(a, b);
  }

  lemma OneMoreSays(tests: seq<Test>, test: Test, issue: Issue)
    ensures issue in Issues(tests + [test]) <==> issue in Issues(tests) || Says(test, issue)
  {
    hide Issues;
    OneTest(tests, test);
  }

  lemma BothSay(a: seq<Test>, b: seq<Test>, issue: Issue)
    ensures issue in Issues(a + b) <==> issue in Issues(a) || issue in Issues(b)
  {
    hide Issues;
    IssuesConcat(a, b);
  }

  lemma FrontSays(a: Test, b: Test, linked: bool, rest: seq<Test>, issue: Issue)
    requires !linked ==> b.outcome == Ok(true)
    ensures issue in Issues([a] + (if linked then [b] else []) + rest)
            <==> Says(a, issue) || Says(b, issue) || issue in Issues(rest)
  {
    hide Issues;
    SettlementFront(a, b, linked, rest);
  }

  lemma IdentityIssue(t: Option<Table>, scope: string, signature: Dict, phase: string, issue: Issue)
    requires IdentityTest(t, scope, signature, phase).outcome.Ok?
    ensures Says(IdentityTest(t, scope, signature, phase), issue) <==> KeyIssue(t, scope, signature, phase, issue)
  {
  }

  lemma BrokerIssue(t: Option<Table>, scope: string, s: Dict, issue: Issue)
    requires BrokerTest(t, scope, s).outcome.Ok?
    ensures Says(BrokerTest(t, scope, s), issue) <==> BrokerKeyIssue(t, scope, s, issue)
  {
  }

  lemma CommitmentIssues(e: Primitives, t: Option<Table>, scope: string, c: PhaseRecord, issue: Issue)
    requires e.d.Sound() && !Raises(OutcomesOf(CommitmentTests(e, t, scope, c)))
    ensures issue in Issues(CommitmentTests(e, t, scope, c)) <==> CommitmentIssue(e, t, scope, c, issue)
  {
    hide BindingTests, BindingIssue, KeyIssue, IdentityTest, Issues, Raises, OutcomesOf;
    var tests, identity := BindingTests(e, c), IdentityTest(t, scope, c.signature, "COMMITMENT");
    OneTest(tests, identity);
    OneMoreSays(tests, identity, issue);
    BindingIssues(e, c, issue);
    IdentityIssue(t, scope, c.signature, "COMMITMENT", issue);
  }

  lemma YesOrNo(outcome: Result<bool>)
    ensures outcome == Ok(true) || outcome == Ok(false) || outcome.Err?
  {
    match outcome {
      case Ok(yes) => if yes { assert outcome == Ok(true); } else { assert outcome == Ok(false); }
      case Err(_) =>
    }
  }

  lemma BindingSays(sigOk: bool, stateOk: bool, quantum: Result<bool>, temporal: Result<bool>, issue: Issue)
    ensures var tests := [Test(CommitmentSigInvalid, Ok(sigOk)), Test(CommitmentStateUnbound, Ok(stateOk)),
                          Test(CommitmentQuantumUnbound, quantum), Test(CommitmentTemporalUnsafe, temporal)];
            !Raises(OutcomesOf(tests)) ==>
              (issue in Issues(tests)
               <==> match issue
                    case CommitmentSigInvalid => !sigOk
                    case CommitmentStateUnbound => !stateOk
                    case CommitmentQuantumUnbound => quantum == Ok(false)
                    case CommitmentTemporalUnsafe => temporal == Ok(false)
                    case _ => false)
  {
    hide Issues, Raises, OutcomesOf;
    var a, b := Test(CommitmentSigInvalid, Ok(sigOk)), Test(CommitmentStateUnbound, Ok(stateOk));
    var c, d := Test(CommitmentQuantumUnbound, quantum), Test(CommitmentTemporalUnsafe, temporal);
    FourTests(a, b, c, d);
    FourSay(a, b, c, d, issue);
    YesOrNo(quantum);
    YesOrNo(temporal);
  }

  lemma BindingIssues(e: Primitives, c: PhaseRecord, issue: Issue)
    requires e.d.Sound() && !Raises(OutcomesOf(BindingTests(e, c)))
    ensures issue in Issues(BindingTests(e, c)) <==> BindingIssue(e, c, issue)
  {
    hide VerifyStatic, Issues, Raises, OutcomesOf;
    hide Commitment.StateBinding, Commitment.QuantumBinding, Commitment.TemporalSafety;
    BindingSays(VerifyStatic(e, c.data, c.signature), Commitment.StateBinding(c.data),
                Commitment.QuantumBinding(c.data), Commitment.TemporalSafety(c.data), issue);
  }

  lemma LinkIssues(c: PhaseRecord, x: PhaseRecord, issue: Issue)
    requires !Raises(OutcomesOf(LinkTests(c, x)))
    ensures issue in Issues(LinkTests(c, x)) <==> LinkIssue(c, x, issue)
  {
    hide Same, Execution.MatchesTerms, Execution.WithinTerms, Execution.NonceIncrement, NextNonce, Issues, Raises, OutcomesOf;
    var tests := LinkTests(c, x);
    FourTests(tests[0], tests[1], tests[2], tests[3]);
    FourSay(tests[0], tests[1], tests[2], tests[3], issue);
    assert tests == [tests[0], tests[1], tests[2], tests[3]];
    NextNonceMeans(c.data, x.data);
    Execution.TermsMeaning(GetOr(c.data, "trade_details", Obj(map[])), GetOr(x.data, "execution_result", Obj(map[])));
  }

  lemma NextNonceMeans(c: Dict, x: Dict)
    requires Execution.NonceIncrement(GetOr(c, "nonce", Num(-1)), x).Ok?
    ensures Execution.NonceIncrement(GetOr(c, "nonce", Num(-1)), x).value <==> NextNonce(c, x)
  {
    hide Same;
    SameMeans(GetOr(x, "nonce_after", Null), Num(NumOf(GetOr(c, "nonce", Num(-1))).value + 1));
  }

  lemma ExecutionSays(sigOk: bool, quantum: Result<bool>, link: seq<Test>, identity: Test, issue: Issue)
    ensures var tests := [Test(ExecutionSigInvalid, Ok(sigOk)), Test(ExecutionQuantumUnbound, quantum)] + link + [identity];
            !Raises(OutcomesOf(tests)) ==>
              && !Raises(OutcomesOf(link)) && identity.outcome.Ok?
              && (issue in Issues(tests)
                  <==> || (issue.ExecutionSigInvalid? && !sigOk)
                       || (issue.ExecutionQuantumUnbound? && quantum == Ok(false))
                       || issue in Issues(link) || Says(identity, issue))
  {
    hide Issues, Raises, OutcomesOf;
    var a, b := Test(ExecutionSigInvalid, Ok(sigOk)), Test(ExecutionQuantumUnbound, quantum);
    TwoTests(a, b);
    TwoSay(a, b, issue);
    BothSay([a, b], link, issue);
    RaisesConcat([a, b], link);
    OneTest([a, b] + link, identity);
    OneMoreSays([a, b] + link, identity, issue);
    YesOrNo(quantum);
  }

  lemma ExecutionIssues(e: Primitives, t: Option<Table>, scope: string, c: Option<PhaseRecord>, x: PhaseRecord, issue: Issue)
    requires e.d.Sound() && !Raises(OutcomesOf(ExecutionTests(e, t, scope, c, x)))
    ensures issue in Issues(ExecutionTests(e, t, scope, c, x)) <==> ExecutionIssue(e, t, scope, c, x, issue)
  {
    hide VerifyStatic, IdentityTest, KeyIssue, LinkTests, LinkIssue, Issues, Raises, OutcomesOf, Says;
    hide Execution.QuantumBinding;
    EmptyTests();
    ExecutionSays(VerifyStatic(e, x.data, x.signature), Execution.QuantumBinding(x.data),
                  if c.Some? then LinkTests(c.value, x) else [], IdentityTest(t, scope, x.signature, "EXECUTION"), issue);
    IdentityIssue(t, scope, x.signature, "EXECUTION", issue);
    if c.Some? { LinkIssues(c.value, x, issue); }
  }

  lemma SettlementSays(sigOk: bool, chain: Result<bool>, linked: bool, seeds: Result<bool>, windows: Result<bool>,
                       identity: Test, broker: Test, issue: Issue)
    ensures var rest := [Test(SeedReuseInChain, seeds), Test(TemporalWindowUnsafe, windows), identity, broker];
            var tests := [Test(SettlementSigInvalid, Ok(sigOk))]
                         + (if linked then [Test(SettlementChainBroken, chain)] else []) + rest;
            !Raises(OutcomesOf(tests)) ==>
              && identity.outcome.Ok? && broker.outcome.Ok?
              && (issue in Issues(tests)
                  <==> || (issue.SettlementSigInvalid? && !sigOk)
                       || (issue.SettlementChainBroken? && linked && chain == Ok(false))
                       || (issue.SeedReuseInChain? && seeds == Ok(false))
                       || (issue.TemporalWindowUnsafe? && windows == Ok(false))
                       || Says(identity, issue) || Says(broker, issue))
  {
    hide Issues, Raises, OutcomesOf;
    var a, b := Test(SettlementSigInvalid, Ok(sigOk)), Test(SettlementChainBroken, if linked then chain else Ok(true));
    var c, d := Test(SeedReuseInChain, seeds), Test(TemporalWindowUnsafe, windows);
    SettlementFront(a, b, linked, [c, d, identity, broker]);
    FrontSays(a, b, linked, [c, d, identity, broker], issue);
    FourTests(c, d, identity, broker);
    FourSay(c, d, identity, broker, issue);
    YesOrNo(chain);
    YesOrNo(seeds);
    YesOrNo(windows);
  }

  lemma SettlementIssues(e: Primitives, t: Option<Table>, scope: string,
                         c: Option<PhaseRecord>, x: Option<PhaseRecord>, s: PhaseRecord, issue: Issue)
    requires e.d.Sound() && !Raises(OutcomesOf(SettlementTests(e, t, scope, c, x, s)))
    ensures issue in Issues(SettlementTests(e, t, scope, c, x, s)) <==> SettlementIssue(e, t, scope, c, x, s, issue)
  {
    hide VerifyStatic, IdentityTest, BrokerTest, KeyIssue, BrokerKeyIssue, Issues, Raises, OutcomesOf, Says;
    hide Settlement.Chain, Settlement.AllSeedsIndependent, Settlement.AllWindows;
    var linked := c.Some? && x.Some?;
    var chain := if linked then Settlement.Chain(e, c.value.signature, x.value.signature, s.data) else Ok(true);
    SettlementSays(VerifyStatic(e, s.data, s.signature), chain, linked, Settlement.AllSeedsIndependent(s.data),
                   Settlement.AllWindows(s.data), IdentityTest(t, scope, s.signature, "SETTLEMENT"),
                   BrokerTest(t, scope, s.data), issue);
    IdentityIssue(t, scope, s.signature, "SETTLEMENT", issue);
    BrokerIssue(t, scope, s.data, issue);
  }

  /** An issue is in the report exactly when what it says is so of a phase that is there. */
  lemma IssueMeans(e: Primitives, t: Option<Table>, scope: string, flow: Flow, issue: Issue)
    requires e.d.Sound() && !Raises(OutcomesOf(FlowTests(e, t, scope, flow)))
    ensures issue in Issues(FlowTests(e, t, scope, flow))
            <==> || (flow.commitment.Some? && CommitmentIssue(e, t, scope, flow.commitment.value, issue))
                 || (flow.execution.Some? && ExecutionIssue(e, t, scope, flow.commitment, flow.execution.value, issue))
                 || (flow.settlement.Some?
                     && SettlementIssue(e, t, scope, flow.commitment, flow.execution, flow.settlement.value, issue))
  {
    hide CommitmentTests, ExecutionTests, SettlementTests, Issues, Raises, OutcomesOf;
    hide CommitmentIssue, ExecutionIssue, SettlementIssue;
    var a := if flow.commitment.Some? then CommitmentTests(e, t, scope, flow.commitment.value) else [];
    var b := if flow.execution.Some? then ExecutionTests(e, t, scope, flow.commitment, flow.execution.value) else [];
    var d := if flow.settlement.Some?
             then SettlementTests(e, t, scope, flow.commitment, flow.execution, flow.settlement.value) else [];
    EmptyTests();
    BothSay(a, b, issue);
    BothSay(a + b, d, issue);
    RaisesConcat(a, b);
    RaisesConcat(a + b, d);
    if flow.commitment.Some? { CommitmentIssues(e, t, scope, flow.commitment.value, issue); }
    if flow.execution.Some? { ExecutionIssues(e, t, scope, flow.commitment, flow.execution.value, issue); }
    if flow.settlement.Some? {
      SettlementIssues(e, t, scope, flow.commitment, flow.execution, flow.settlement.value, issue);
    }
  }

  /** An account id that is given is the scope, and an empty or missing one leaves it to the order. */
  lemma ScopeMeans(orderId: string, accountId: string)
    ensures accountId != "" ==> Scope(orderId, Some(accountId)) == accountId
    ensures Scope(orderId, Some("")) == orderId && Scope(orderId, None) == orderId
  {
  }

  /** The octets that the chain check hashes for the settlement `s` of the envelopes `c` and `x`. */
  function SealedOctets(c: Dict, x: Dict, s: Dict): seq<byte> {
    match GetOr(s, "broker_settlement_sig", Str(""))
    case Str(ack) => Utf8(Settlement.MerklePreimage(c, x, ack, GetOr(s, "broker_signature", Null)))
    case _ => []
  }

  /** The merkle hash alone pins what a settlement seals: two certified flows whose settlements show the
      same hash, whatever else these say and whatever scope and registry they were certified under,
      have the same commitment and execution envelopes, the same text of the broker and the same
      signature of the broker, unless the two texts sealed collide. */
  lemma MerklePins(e: Primitives, t: Option<Table>, scope: string, flow: Flow,
                   t': Option<Table>, scope': string, other: Flow)
    requires e.d.Sound() && ChainValid(e, t, scope, flow) && ChainValid(e, t', scope', other)
    requires var s, s' := flow.settlement.value.data, other.settlement.value.data;
             && s.Get("flow_merkle_hash") == s'.Get("flow_merkle_hash")
             && var a := SealedOctets(flow.commitment.value.signature, flow.execution.value.signature, s);
                var b := SealedOctets(other.commitment.value.signature, other.execution.value.signature, s');
                e.sha256(a) == e.sha256(b) ==> a == b
    ensures flow.commitment.value.signature == other.commitment.value.signature
    ensures flow.execution.value.signature == other.execution.value.signature
    ensures var s, s' := flow.settlement.value.data, other.settlement.value.data;
            && GetOr(s, "broker_settlement_sig", Str("")) == GetOr(s', "broker_settlement_sig", Str(""))
            && Settlement.OrEmpty(GetOr(s, "broker_signature", Null))
               == Settlement.OrEmpty(GetOr(s', "broker_signature", Null))
  {
    hide ChainValid, SealedOctets, GetOr, Settlement.OrEmpty, Sealed;
    SealRead(e, t, scope, flow);
    SealRead(e, t', scope', other);
    SealPins(e, flow.commitment.value.signature, flow.execution.value.signature, flow.settlement.value.data,
             other.commitment.value.signature, other.execution.value.signature, other.settlement.value.data);
  }

  /** A settlement shows the merkle hash of the two envelopes and of what it says of the broker. */
  ghost predicate Sealed(e: Primitives, c: Dict, x: Dict, s: Dict) {
    var ack, signature := GetOr(s, "broker_settlement_sig", Str("")), GetOr(s, "broker_signature", Null);
    && ack.Str? && Settlement.OrEmpty(signature).Obj?
    && s.Get("flow_merkle_hash") == Some(Str(Settlement.FlowMerkle(e, c, x, ack.s, signature)))
  }

  lemma SealPins(e: Primitives, c: Dict, x: Dict, s: Dict, c': Dict, x': Dict, s': Dict)
    requires Sealed(e, c, x, s) && Sealed(e, c', x', s')
    requires s.Get("flow_merkle_hash") == s'.Get("flow_merkle_hash")
    requires e.sha256(SealedOctets(c, x, s)) == e.sha256(SealedOctets(c', x', s'))
             ==> SealedOctets(c, x, s) == SealedOctets(c', x', s')
    ensures c == c' && x == x'
    ensures GetOr(s, "broker_settlement_sig", Str("")) == GetOr(s', "broker_settlement_sig", Str(""))
    ensures Settlement.OrEmpty(GetOr(s, "broker_signature", Null))
         == Settlement.OrEmpty(GetOr(s', "broker_signature", Null))
  {
    hide Settlement.FlowMerkle, Settlement.MerklePreimage, Settlement.OrEmpty, Utf8, GetOr;
    var ack, ack' := GetOr(s, "broker_settlement_sig", Str("")).s, GetOr(s', "broker_settlement_sig", Str("")).s;
    Settlement.FlowMerkleBinds(e, c, x, ack, GetOr(s, "broker_signature", Null),
                               c', x', ack', GetOr(s', "broker_signature", Null));
  }

  /** What a certified settlement says about its seal. */
  lemma SealRead(e: Primitives, t: Option<Table>, scope: string, flow: Flow)
    requires e.d.Sound() && ChainValid(e, t, scope, flow)
    ensures AllPresent(flow)
    ensures Sealed(e, flow.commitment.value.signature, flow.execution.value.signature, flow.settlement.value.data)
  {
    hide VerifyStatic, Same, Settlement.FlowMerkle, Settlement.Chain, Settlement.OrEmpty;
    hide CommitmentChecks, ExecutionChecks, LinkChecks, IdentityOk, BrokerOk;
    var s := flow.settlement.value;
    var ss := SettlementChecks(e, t, scope, flow.commitment, flow.execution, s);
    assert ss[2] == ss[3] == Ok(true);
    BrokerMeans(t, scope, s.data);
    ChainMeans(e, flow.commitment.value.signature, flow.execution.value.signature, s.data);
  }

  // ----- the registry -----

  ghost predicate TableWithin(t: Option<Table>, u: Option<Table>) {
    t.Some? ==> u.Some? && Within(t.value, u.value)
  }

  lemma KeyAuthorizedGrows(t: Table, u: Table, account: string, key: Json)
    requires Within(t, u) && KeyAuthorized(t, account, key) == Ok(true)
    ensures KeyAuthorized(u, account, key) == Ok(true)
  {
    assert Authorized(t, account, key.s);
  }

  lemma IdentityGrows(t: Option<Table>, u: Option<Table>, scope: string, signature: Dict)
    requires TableWithin(t, u) && IdentityOk(t, scope, signature) == Ok(true)
    ensures IdentityOk(u, scope, signature) == Ok(true)
  {
    KeyAuthorizedGrows(t.value, u.value, scope, GetOr(signature, "pubkey", Str("")));
  }

  lemma BrokerGrows(t: Option<Table>, u: Option<Table>, scope: string, s: Dict)
    requires TableWithin(t, u) && BrokerOk(t, scope, s) == Ok(true)
    ensures BrokerOk(u, scope, s) == Ok(true)
  {
    KeyAuthorizedGrows(t.value, u.value, BrokerScope(scope), BrokerKey(s).value);
  }

  /** A flow that is certified stays so under any registry that authorises at least as much. */
  lemma ChainValidGrows(e: Primitives, t: Option<Table>, u: Option<Table>, scope: string, flow: Flow)
    requires e.d.Sound() && TableWithin(t, u) && ChainValid(e, t, scope, flow)
    ensures ChainValid(e, u, scope, flow)
  {
    hide VerifyStatic, IdentityOk, BrokerOk, LinkChecks, TableWithin;
    hide Commitment.StateBinding, Commitment.QuantumBinding, Commitment.TemporalSafety;
    hide Execution.QuantumBinding, Execution.TemporalSafety;
    hide Settlement.Chain, Settlement.AllSeedsIndependent, Settlement.AllWindows;
    var c, x, s := flow.commitment.value, flow.execution.value, flow.settlement.value;
    var cs, xs := CommitmentChecks(e, t, scope, c), ExecutionChecks(e, t, scope, flow.commitment, x);
    var ss := SettlementChecks(e, t, scope, flow.commitment, flow.execution, s);
    assert cs[4] == Ok(true) && xs[3] == Ok(true) && ss[1] == Ok(true) && ss[2] == Ok(true);
    IdentityGrows(t, u, scope, c.signature);
    IdentityGrows(t, u, scope, x.signature);
    IdentityGrows(t, u, scope, s.signature);
    BrokerGrows(t, u, scope, s.data);
    assert CommitmentChecks(e, u, scope, c) == cs;
    assert ExecutionChecks(e, u, scope, flow.commitment, x) == xs;
    assert SettlementChecks(e, u, scope, flow.commitment, flow.execution, s) == ss;
  }

  /** Registering a key never takes a certificate away, and revoking one never gives one. */
  lemma RegistryMonotone(e: Primitives, t: Table, account: string, pubkey: string, scope: string, flow: Flow)
    requires e.d.Sound()
    ensures ChainValid(e, Some(t), scope, flow) ==> ChainValid(e, Some(Apply(t, Register(account, pubkey))), scope, flow)
    ensures ChainValid(e, Some(Apply(t, Revoke(account, pubkey))), scope, flow) ==> ChainValid(e, Some(t), scope, flow)
  {
    hide ChainValid;
    var more, less := Apply(t, Register(account, pubkey)), Apply(t, Revoke(account, pubkey));
    RegisterGrows(t, account, pubkey);
    RevokeShrinks(t, account, pubkey);
    if ChainValid(e, Some(t), scope, flow) { ChainValidGrows(e, Some(t), Some(more), scope, flow); }
    if ChainValid(e, Some(less), scope, flow) { ChainValidGrows(e, Some(less), Some(t), scope, flow); }
  }
}
