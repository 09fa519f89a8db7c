/** A trade through the log: signing, appending and verifying, with the log free to rotate and to take
    other entries in between. */
module LoggedRun {
  import opened Outcomes
  import opened Bytes
  import opened Json
  import opened PyValues
  import opened Ecdsa
  import opened OneShot
  import Registry
  import opened AuditStore
  import opened Rotation
  import opened AuditLogFile
  import opened TradeVerifier
  import opened HonestRun
  import Commitment
  import Execution
  import Settlement

  // ----- what a scan finds behind other entries -----

  ghost predicate Files(entry: AuditEntry, orderId: string, phase: string) {
    entry.orderId == orderId && entry.phase == phase
  }

  /** Entries of other orders and phases hide nothing. */
  lemma {:induction false} OthersPassed(live: seq<AuditEntry>, later: seq<AuditEntry>, orderId: string, phase: string)
    requires forall x :: x in later ==> !Files(x, orderId, phase)
    ensures ScanPhase(live + later, orderId, phase) == ScanPhase(live, orderId, phase)
    decreases |later|
  {
    if later == [] {
      assert live + later == live;
    } else {
      var init, all := later[..|later| - 1], live + later;
      OthersPassed(live, init, orderId, phase);
      assert all[..|all| - 1] == live + init;
      assert later[|later| - 1] in later;
      SameBelow(live + init, all, orderId, phase);
    }
  }

  lemma SameBelow(init: seq<AuditEntry>, all: seq<AuditEntry>, orderId: string, phase: string)
    requires all != [] && init == all[..|all| - 1] && !Files(all[|all| - 1], orderId, phase)
    ensures ScanPhase(all, orderId, phase) == ScanPhase(init, orderId, phase)
  {
  }

  /** The last entry of an order and phase is found behind others. */
  lemma FoundBehind(live: seq<AuditEntry>, entry: AuditEntry, later: seq<AuditEntry>)
    requires forall x :: x in later ==> !Files(x, entry.orderId, entry.phase)
    ensures ScanPhase(live + [entry] + later, entry.orderId, entry.phase) == Some(RecordOf(entry))
  {
    OthersPassed(live + [entry], later, entry.orderId, entry.phase);
  }

  /** What a scan finds is one of the entries. */
  lemma {:induction false} FoundAmong(live: seq<AuditEntry>, orderId: string, phase: string)
    ensures match ScanPhase(live, orderId, phase)
            case None => forall x :: x in live ==> !Files(x, orderId, phase)
            case Some(record) => exists x :: x in live && Files(x, orderId, phase) && record == RecordOf(x)
  {
    if live != [] {
      var init, last := live[..|live| - 1], live[|live| - 1];
      assert live == init + [last];
      FoundAmong(init, orderId, phase);
      if Files(last, orderId, phase) {
        assert last in live && ScanPhase(live, orderId, phase) == Some(RecordOf(last));
      } else {
        SameBelow(init, live, orderId, phase);
      }
    }
  }

  lemma {:induction false} BindableOnesConcat(a: seq<AuditEntry>, b: seq<AuditEntry>)
    ensures BindableOnes(a + b) == BindableOnes(a) + BindableOnes(b)
  {
    hide Bindable;
    if b == [] {
      assert a + b == a;
    } else {
      var init := b[..|b| - 1];
      BindableOnesConcat(a, init);
      assert (a + b)[..|a + b| - 1] == a + init;
    }
  }

  lemma {:induction false} BindableOnesAmong(entries: seq<AuditEntry>)
    ensures forall x :: x in BindableOnes(entries) ==> x in entries
  {
    if entries != [] { BindableOnesAmong(entries[..|entries| - 1]); }
  }

  lemma {:induction false} ListedAmong(live: seq<Line>)
    ensures forall x :: x in Listed(live) ==> x in Entries(live)
  {
    if live != [] {
      var n := |live| - 1;
      ListedAmong(live[..n]);
      EntriesInit(live, n);
      assert Entries(live)[n] == live[n].entry;
    }
  }

  // ----- the three appends of a trade -----

  /** Entries of other orders. */
  ghost predicate Unrelated(others: seq<AuditEntry>, orderId: string) {
    forall x :: x in others ==> x.orderId != orderId && !x.IsMarker()
  }

  /** The three entries of a trade, in the order in which they are appended. */
  ghost predicate IsTrade(first: AuditEntry, second: AuditEntry, third: AuditEntry, orderId: string) {
    && first.orderId == second.orderId == third.orderId == orderId
    && first.phase == PHASE_COMMITMENT && second.phase == PHASE_EXECUTION && third.phase == PHASE_SETTLEMENT
    && Bindable(first) && Bindable(second) && Bindable(third)
  }

  function FlowOf(first: AuditEntry, second: AuditEntry, third: AuditEntry): Flow {
    Flow(Some(RecordOf(first)), Some(RecordOf(second)), Some(RecordOf(third)))
  }

  /** A flow that has no commitment, and of the other phases at most those of the trade. */
  ghost predicate Cut(flow: Flow, second: AuditEntry, third: AuditEntry) {
    && flow.commitment == None
    && (flow.execution == None || flow.execution == Some(RecordOf(second)))
    && (flow.settlement == None || flow.settlement == Some(RecordOf(third)))
  }

  /** Later entries that stayed in the file leave the three where a scan finds them. */
  lemma TradeFound(orderId: string, first: AuditEntry, second: AuditEntry, third: AuditEntry,
                   a: seq<AuditEntry>, b: seq<AuditEntry>, c: seq<AuditEntry>, d: seq<AuditEntry>)
    requires IsTrade(first, second, third, orderId)
    requires Unrelated(b, orderId) && Unrelated(c, orderId) && Unrelated(d, orderId)
    ensures ScanFlow(a + [first] + (b + [second] + c + [third] + d), orderId) == FlowOf(first, second, third)
  {
    hide ScanPhase, Bindable;
    var live := a + [first] + (b + [second] + c + [third] + d);
    FoundBehind(a, first, b + [second] + c + [third] + d);
    FoundBehind(a + [first] + b, second, c + [third] + d);
    assert live == (a + [first] + b) + [second] + (c + [third] + d);
    FoundBehind(a + [first] + b + [second] + c, third, d);
    assert live == (a + [first] + b + [second] + c) + [third] + d;
  }

  /** When the file with the commitment was closed, the live one has no commitment of the order. */
  lemma TradeCut(orderId: string, second: AuditEntry, third: AuditEntry,
                 others: seq<AuditEntry>, live: seq<AuditEntry>)
    requires second.phase == PHASE_EXECUTION && third.phase == PHASE_SETTLEMENT
    requires Unrelated(others, orderId)
    requires forall x :: x in live ==> x.IsMarker() || x in others || x == second || x == third
    ensures Cut(ScanFlow(live, orderId), second, third)
  {
    hide ScanPhase;
    FoundAmong(live, orderId, PHASE_COMMITMENT);
    FoundAmong(live, orderId, PHASE_EXECUTION);
    FoundAmong(live, orderId, PHASE_SETTLEMENT);
  }

  /** What the log has of a trade after its three appends, with appends for other orders before, between
      and after: the whole flow, if no append after the commitment's found a rotation due, and else a
      flow without its commitment. */
  lemma LoggedFlow(c: Config, v: View, orderId: string, first: Call, second: Call, third: Call,
                   between: seq<Call>, more: seq<Call>, after: seq<Call>)
    requires IsTrade(first.entry, second.entry, third.entry, orderId)
    requires Unrelated(EntriesOf(between), orderId) && Unrelated(EntriesOf(more), orderId)
    requires Unrelated(EntriesOf(after), orderId)
    ensures var v1 := Append(c, v, first);
            var calls := between + [second] + more + [third] + after;
            var flow := ScanFlow(Listed(Run(c, v1, calls).live), orderId);
            if StaysInFile(c, v1, calls) then flow == FlowOf(first.entry, second.entry, third.entry)
            else Cut(flow, second.entry, third.entry)
  {
    hide Bindable, ScanFlow, StaysInFile, Run, Append, Listed, Ready;
    var v1 := Append(c, v, first);
    var calls := between + [second] + more + [third] + after;
    var b, m, d := EntriesOf(between), EntriesOf(more), EntriesOf(after);
    var x, s := second.entry, third.entry;
    var entries := b + [x] + m + [s] + d;
    assert EntriesOf(calls) == entries;
    NoMarkersAmong(calls);
    RunShape(c, v1, calls);
    var live := Run(c, v1, calls).live;
    if StaysInFile(c, v1, calls) {
      var before := ListedBefore(c, v, first);
      FiveBindable(b, x, m, s, d);
      BindableOnesAmong(b);
      BindableOnesAmong(m);
      BindableOnesAmong(d);
      TradeFound(orderId, first.entry, x, s, before, BindableOnes(b), BindableOnes(m), BindableOnes(d));
    } else {
      ListedAmong(live);
      forall y | y in Listed(live) ensures y.IsMarker() || y in b + m + d || y == x || y == s {
        assert y in Entries(live);
      }
      TradeCut(orderId, x, s, b + m + d, Listed(live));
    }
  }

  lemma NoMarkersAmong(calls: seq<Call>)
    requires forall x :: x in EntriesOf(calls) ==> !x.IsMarker()
    ensures NoMarkers(calls)
  {
    forall i | 0 <= i < |calls| ensures !calls[i].entry.IsMarker() {
      assert EntriesOf(calls)[i] in EntriesOf(calls);
    }
  }

  /** The listed entries in front of one that was just appended. */
  ghost function ListedBefore(c: Config, v: View, call: Call): (before: seq<AuditEntry>)
    requires Bindable(call.entry)
    ensures Listed(Append(c, v, call).live) == before + [call.entry]
  {
    var live := Append(c, v, call).live;
    assert live[..|live| - 1] == Ready(c, v, call).live;
    Listed(Ready(c, v, call).live)
  }

  lemma FiveBindable(b: seq<AuditEntry>, x: AuditEntry, m: seq<AuditEntry>, s: AuditEntry, d: seq<AuditEntry>)
    requires Bindable(x) && Bindable(s)
    ensures BindableOnes(b + [x] + m + [s] + d)
         == BindableOnes(b) + [x] + BindableOnes(m) + [s] + BindableOnes(d)
  {
    hide BindableOnes;
    BindableOnesConcat(b + [x] + m + [s], d);
    BindableOnesConcat(b + [x] + m, [s]);
    BindableOnesConcat(b + [x], m);
    BindableOnesConcat(b, [x]);
    OneBindable(x);
    OneBindable(s);
  }

  lemma OneBindable(x: AuditEntry)
    requires Bindable(x)
    ensures BindableOnes([x]) == [x]
  {
    assert [x][..0] == [];
  }

  // ----- a trade, its calls and its verdict -----

  /** What the clock says at one append: the archive name it would give, and the time. */
  datatype Moment = Moment(stamp: string, now: int)

  datatype Moments = Moments(commit: Moment, execute: Moment, settle: Moment)

  function CommitCall(e: Primitives, p: Plan, commitment: Dict, m: Moment): Call {
    Call(EntryFor(PHASE_COMMITMENT, p.orderId, p.CommitmentPayload(e), commitment, m.now), m.stamp, m.now)
  }

  /** An execution is filed under the order id inside its fill. */
  function ExecuteCall(e: Primitives, p: Plan, commitment: Dict, execution: Dict, m: Moment): Call {
    Call(EntryFor(PHASE_EXECUTION, p.fill.orderId, p.ExecutionPayload(e, commitment), execution, m.now), m.stamp, m.now)
  }

  function SettleCall(e: Primitives, p: Plan, g: Signed, m: Moment): Call {
    Call(EntryFor(PHASE_SETTLEMENT, p.orderId, p.SettlementPayload(e, g.commitment, g.execution, g.broker),
                  g.settlement, m.now), m.stamp, m.now)
  }

  /** sqlite3 can bind the method of every payload that `create_and_sign` makes. */
  lemma PayloadsBindable(e: Primitives, p: Plan, g: Signed, m: Moment)
    ensures Bindable(CommitCall(e, p, g.commitment, m).entry)
    ensures Bindable(ExecuteCall(e, p, g.commitment, g.execution, m).entry)
    ensures Bindable(SettleCall(e, p, g, m).entry)
  {
    hide Commitment.Payload, Execution.Attestation, Settlement.Payload, ExtractProof;
    CommitmentTells(e, p);
    ExecutionReads(e, p, g.commitment);
    SettlementLinks(e, p, g.commitment, g.execution, g.broker);
  }

  lemma CallsRecord(e: Primitives, p: Plan, g: Signed, at: Moments, flow: Flow)
    requires var first, second, third :=
               CommitCall(e, p, g.commitment, at.commit).entry, ExecuteCall(e, p, g.commitment, g.execution, at.execute).entry,
               SettleCall(e, p, g, at.settle).entry;
             flow == FlowOf(first, second, third) || Cut(flow, second, third)
    ensures Records(e, flow, p, g)
  {
    hide Commitment.Payload, Execution.Attestation, Settlement.Payload, ExtractProof;
  }

  /** Exactly when a trade that went through the log is certified, with any appends for other orders
      before, between and after its three: if and only if the trade is proper and no append after the
      one of its commitment found a rotation due. */
  lemma LoggedTradeCertifiedIff(e: Primitives, t: Registry.Table, scope: string, p: Plan, g: Signed, at: Moments,
                                c: Config, v: View, between: seq<Call>, more: seq<Call>, after: seq<Call>)
    requires Made(e, p, g) && p.fill.orderId == p.orderId
    requires Unrelated(EntriesOf(between), p.orderId) && Unrelated(EntriesOf(more), p.orderId)
    requires Unrelated(EntriesOf(after), p.orderId)
    ensures var v1 := Append(c, v, CommitCall(e, p, g.commitment, at.commit));
            var calls := between + [ExecuteCall(e, p, g.commitment, g.execution, at.execute)] + more + [SettleCall(e, p, g, at.settle)] + after;
            var flow := ScanFlow(Listed(Run(c, v1, calls).live), p.orderId);
            && Completes(e, Some(t), scope, flow)
            && (ChainValid(e, Some(t), scope, flow) <==> StaysInFile(c, v1, calls) && Proper(e, t, scope, p))
            && (StaysInFile(c, v1, calls) ==>
                  (Issues(FlowTests(e, Some(t), scope, flow)) == [] <==> Proper(e, t, scope, p)))
  {
    hide Made, Proper, Completes, ChainValid, Issues, FlowTests, StaysInFile, Run, Append, Listed, ScanFlow, Bindable;
    hide Commitment.Payload, Execution.Attestation, Settlement.Payload, ExtractProof, Records;
    var first, second := CommitCall(e, p, g.commitment, at.commit), ExecuteCall(e, p, g.commitment, g.execution, at.execute);
    var third := SettleCall(e, p, g, at.settle);
    var v1 := Append(c, v, first);
    var calls := between + [second] + more + [third] + after;
    var flow := ScanFlow(Listed(Run(c, v1, calls).live), p.orderId);
    PayloadsBindable(e, p, g, at.commit);
    PayloadsBindable(e, p, g, at.execute);
    PayloadsBindable(e, p, g, at.settle);
    LoggedFlow(c, v, p.orderId, first, second, third, between, more, after);
    CallsRecord(e, p, g, at, flow);
    MadeTradeCertifiedIff(e, t, scope, flow, p, g);
  }

  // ----- the run itself -----

  /** The log after the three appends of a trade. */
  function AfterTrade(e: Primitives, p: Plan, g: Signed, at: Moments, c: Config, v: View): View {
    Append(c, Append(c, Append(c, v, CommitCall(e, p, g.commitment, at.commit)), ExecuteCall(e, p, g.commitment, g.execution, at.execute)),
           SettleCall(e, p, g, at.settle))
  }

  /** Neither the append of the execution nor that of the settlement finds a rotation due. */
  ghost predicate InOneFile(e: Primitives, p: Plan, g: Signed, at: Moments, c: Config, v: View) {
    var v1 := Append(c, v, CommitCall(e, p, g.commitment, at.commit));
    var v2 := Append(c, v1, ExecuteCall(e, p, g.commitment, g.execution, at.execute));
    !ShouldRotate(c, DiskOf(c, v1)) && !ShouldRotate(c, DiskOf(c, v2))
  }

  lemma RunOfTwo(c: Config, v: View, second: Call, third: Call)
    ensures Run(c, v, [second, third]) == Append(c, Append(c, v, second), third)
    ensures StaysInFile(c, v, [second, third])
            <==> !ShouldRotate(c, DiskOf(c, v)) && !ShouldRotate(c, DiskOf(c, Append(c, v, second)))
  {
    hide ShouldRotate, DiskOf, Append;
    var calls := [second, third];
    assert calls[..1] == [second] && calls[..0] == [] && [second][..0] == [];
    assert Run(c, v, calls[..1]) == Append(c, v, second);
    assert Run(c, v, calls[..0]) == v;
    StaysStep(c, v, calls);
    StaysStep(c, v, [second]);
  }

  /** The case with no other appends in between. */
  lemma TradeAloneCertifiedIff(e: Primitives, t: Registry.Table, scope: string, p: Plan, g: Signed, at: Moments,
                               c: Config, v: View)
    requires Made(e, p, g) && p.fill.orderId == p.orderId
    ensures var flow := ScanFlow(Listed(AfterTrade(e, p, g, at, c, v).live), p.orderId);
            && Completes(e, Some(t), scope, flow)
            && (ChainValid(e, Some(t), scope, flow) <==> InOneFile(e, p, g, at, c, v) && Proper(e, t, scope, p))
            && (InOneFile(e, p, g, at, c, v) ==>
                  (Issues(FlowTests(e, Some(t), scope, flow)) == [] <==> Proper(e, t, scope, p)))
  {
    hide Made, Proper, Completes, ChainValid, Issues, FlowTests, StaysInFile, Run, Append, Listed, ScanFlow;
    hide ShouldRotate, DiskOf, CommitCall, ExecuteCall, SettleCall;
    var v1 := Append(c, v, CommitCall(e, p, g.commitment, at.commit));
    var second, third := ExecuteCall(e, p, g.commitment, g.execution, at.execute), SettleCall(e, p, g, at.settle);
    assert EntriesOf([]) == [];
    LoggedTradeCertifiedIff(e, t, scope, p, g, at, c, v, [], [], []);
    assert [] + [second] + [] + [third] + [] == [second, third];
    RunOfTwo(c, v1, second, third);
  }

  /** An execution whose fill names another order is filed there: unless the log had an execution of the
      order before, the verifiers return and do not certify the trade. */
  lemma MisfiledNotCertified(e: Primitives, t: Registry.Table, scope: string, p: Plan, g: Signed, at: Moments,
                             c: Config, v: View)
    requires Made(e, p, g) && p.fill.orderId != p.orderId
    requires ScanPhase(Listed(v.live), p.orderId, PHASE_EXECUTION) == None
    ensures var flow := ScanFlow(Listed(AfterTrade(e, p, g, at, c, v).live), p.orderId);
            Completes(e, Some(t), scope, flow) && !ChainValid(e, Some(t), scope, flow)
  {
    hide ScanPhase, Append, Made, Proper, Completes, Issues, FlowTests, Bindable;
    hide Commitment.Payload, Execution.Attestation, Settlement.Payload, ExtractProof;
    hide CommitmentChecks, ExecutionChecks, SettlementChecks, Holds;
    var first, second := CommitCall(e, p, g.commitment, at.commit), ExecuteCall(e, p, g.commitment, g.execution, at.execute);
    var third := SettleCall(e, p, g, at.settle);
    var v1 := Append(c, v, first);
    var v2 := Append(c, v1, second);
    PayloadsBindable(e, p, g, at.commit);
    PayloadsBindable(e, p, g, at.settle);
    OtherFiled(c, v, first, p.orderId, PHASE_EXECUTION);
    OtherFiled(c, v1, second, p.orderId, PHASE_EXECUTION);
    OtherFiled(c, v2, third, p.orderId, PHASE_EXECUTION);
    JustFiled(c, v, first);
    OtherFiled(c, v1, second, p.orderId, PHASE_COMMITMENT);
    OtherFiled(c, v2, third, p.orderId, PHASE_COMMITMENT);
    JustFiled(c, v2, third);
    MadeTradeCertifiedIff(e, t, scope, ScanFlow(Listed(Append(c, v2, third).live), p.orderId), p, g);
  }

  /** An append of something else leaves the record of an order in a phase as it is, or loses it. */
  lemma OtherFiled(c: Config, v: View, call: Call, orderId: string, phase: string)
    requires !Files(call.entry, orderId, phase) && !call.entry.IsMarker() && phase != PHASE_ROTATION
    ensures var before, after := ScanPhase(Listed(v.live), orderId, phase),
                                 ScanPhase(Listed(Append(c, v, call).live), orderId, phase);
            after == before || after == None
  {
    hide ShouldRotate, DiskOf, Bindable, Marker, Append, ScanPhase;
    AppendShape(c, v, call);
    var live := Append(c, v, call).live;
    if ShouldRotate(c, DiskOf(c, v)) {
      MarkerBindable(c, call.stamp, call.now);
      ListedAmong(live);
      FoundAmong(Listed(live), orderId, phase);
    } else {
      OthersPassed(Listed(v.live), if Bindable(call.entry) then [call.entry] else [], orderId, phase);
    }
  }

  /** What was just appended is found. */
  lemma JustFiled(c: Config, v: View, call: Call)
    requires Bindable(call.entry)
    ensures ScanPhase(Listed(Append(c, v, call).live), call.entry.orderId, call.entry.phase)
         == Some(RecordOf(call.entry))
  {
    hide ScanPhase, Append, Bindable;
    var before := ListedBefore(c, v, call);
    FoundBehind(before, call.entry, []);
    assert before + [call.entry] + [] == before + [call.entry];
  }

  lemma OrderIdsRead(e: Primitives, p: Plan, g: Signed)
    ensures OrderId(p.CommitmentPayload(e).Get("order_id"))
         == if p.orderId == [] then Err(MissingOrderId) else Ok(p.orderId)
    ensures ExecutionOrderId(p.ExecutionPayload(e, g.commitment))
         == if p.fill.orderId == [] then Err(MissingOrderId) else Ok(p.fill.orderId)
    ensures OrderId(p.SettlementPayload(e, g.commitment, g.execution, g.broker).Get("order_id"))
         == if p.orderId == [] then Err(MissingOrderId) else Ok(p.orderId)
  {
    hide Commitment.Payload, Execution.Attestation, Settlement.Payload;
    CommitmentTells(e, p);
    ExecutionReads(e, p, g.commitment);
    SettlementLinks(e, p, g.commitment, g.execution, g.broker);
    assert p.fill.ToJson().Get("order_id") == Some(Str(p.fill.orderId));
  }

  method CommitAndLog(e: Primitives, log: AuditLog, p: Plan, m: Moment) returns (r: Result<Dict>)
    requires e.d.Sound() && log.Valid() && p.commitKey.Ends(e, p.CommitmentPayload(e))
    modifies log
    ensures log.Valid()
    ensures r.Ok? <==> p.commitKey.Sign(e, p.CommitmentPayload(e)).Ok? && p.orderId != []
    ensures r.Ok? ==>
              && p.commitKey.Sign(e, p.CommitmentPayload(e)) == r
              && log.view == Append(log.c, old(log.view), CommitCall(e, p, r.value, m))
  {
    hide Commitment.Payload, ExtractProof, KeyUse.Sign, KeyUse.Ends, Bindable, Append, AllPhases, DiskOf;
    var c :- Commitment.CreateAndSign(e, p.orderId, p.tradeDetails, p.before, p.reasoningHash, p.committedAt, p.commitKey);
    ghost var g := Signed(c.1, c.1, c.1, c.1);
    OrderIdsRead(e, p, g);
    PayloadsBindable(e, p, g, m);
    var _ :- log.AppendCommitment(c.0, c.1, m.stamp, m.now);
    return Ok(c.1);
  }

  method ExecuteAndLog(e: Primitives, log: AuditLog, p: Plan, commitment: Dict, m: Moment) returns (r: Result<Dict>)
    requires e.d.Sound() && log.Valid() && p.executeKey.Ends(e, p.ExecutionPayload(e, commitment))
    modifies log
    ensures log.Valid()
    ensures r.Ok? <==> p.executeKey.Sign(e, p.ExecutionPayload(e, commitment)).Ok? && p.fill.orderId != []
    ensures r.Ok? ==>
              && p.executeKey.Sign(e, p.ExecutionPayload(e, commitment)) == r
              && log.view == Append(log.c, old(log.view), ExecuteCall(e, p, commitment, r.value, m))
  {
    hide Execution.Attestation, ExtractProof, KeyUse.Sign, KeyUse.Ends, Bindable, Append, AllPhases, DiskOf;
    var x :- Execution.CreateAndSign(e, commitment, p.commitKey.Record(e).seedHash, p.fill, p.after, p.executeKey);
    ghost var g := Signed(commitment, x.1, x.1, x.1);
    OrderIdsRead(e, p, g);
    PayloadsBindable(e, p, g, m);
    var _ :- log.AppendExecution(x.0, x.1, m.stamp, m.now);
    return Ok(x.1);
  }

  method SettleAndLog(e: Primitives, log: AuditLog, p: Plan, c: Dict, x: Dict, b: Dict, m: Moment)
    returns (r: Result<Dict>)
    requires e.d.Sound() && log.Valid() && p.settleKey.Ends(e, p.SettlementPayload(e, c, x, b))
    modifies log
    ensures log.Valid()
    ensures r.Ok? <==> p.settleKey.Sign(e, p.SettlementPayload(e, c, x, b)).Ok? && p.orderId != []
    ensures r.Ok? ==>
              && p.settleKey.Sign(e, p.SettlementPayload(e, c, x, b)) == r
              && log.view == Append(log.c, old(log.view), SettleCall(e, p, Signed(c, x, b, r.value), m))
  {
    hide Settlement.Payload, ExtractProof, KeyUse.Sign, KeyUse.Ends, Bindable, Append, AllPhases, DiskOf;
    var s :- Settlement.CreateAndSign(e, p.orderId, c, p.claimedCommit, p.commitKey.Record(e).Window(),
                                      x, p.claimedExecute, p.executeKey.Record(e).Window(),
                                      p.ack, b, p.settledAt, p.settleKey);
    ghost var g := Signed(c, x, b, s.1);
    OrderIdsRead(e, p, g);
    PayloadsBindable(e, p, g, m);
    var _ :- log.AppendSettlement(s.0, s.1, m.stamp, m.now);
    return Ok(s.1);
  }

  /** Commit, execute and settle with `create_and_sign`, the broker's signature before the settlement,
      and each phase appended to the log when it is made. */
  method SignAndLog(e: Primitives, log: AuditLog, p: Plan, at: Moments) returns (r: Result<()>)
    requires e.d.Sound() && log.Valid() && LoopsEnd(e, p)
    modifies log
    ensures log.Valid()
    ensures r.Ok? <==> SignAll(e, p).Ok? && p.orderId != [] && p.fill.orderId != []
    ensures r.Ok? ==> log.view == AfterTrade(e, p, SignAll(e, p).value, at, log.c, old(log.view))
  {
    hide Plan.CommitmentPayload, Plan.ExecutionPayload, Plan.BrokerPayload, Plan.SettlementPayload;
    hide KeyUse.Sign, KeyUse.Ends, Append, AllPhases, DiskOf, CommitCall, ExecuteCall, SettleCall;
    var c :- CommitAndLog(e, log, p, at.commit);
    var x :- ExecuteAndLog(e, log, p, c, at.execute);
    var b :- SignWithFreshKey(e, p.brokerKey, p.BrokerPayload(c, x));
    var _ :- SettleAndLog(e, log, p, c, x, b, at.settle);
    return Ok(());
  }

  /** One trade from its keys to the verdicts: commit, execute and settle with `create_and_sign`, each
      phase appended to the log when it is made, then both verifiers. */
  method RunTrade(e: Primitives, log: AuditLog, registry: Registry.AccountKeyRegistry, accountId: Option<string>,
                  p: Plan, at: Moments)
    returns (r: Result<(Report, Tampering)>)
    requires e.Sound() && log.Valid() && LoopsEnd(e, p)
    modifies log
    ensures log.Valid()
    ensures SignAll(e, p).Err? || p.orderId == [] || p.fill.orderId == [] ==> r.Err?
    ensures SignAll(e, p).Ok? && p.orderId != [] && p.fill.orderId == p.orderId ==>
              var g, v, scope := SignAll(e, p).value, old(log.view), Scope(p.orderId, accountId);
              && log.view == AfterTrade(e, p, g, at, log.c, v)
              && r.Ok?
              && (r.value.0.chainValid <==>
                    InOneFile(e, p, g, at, log.c, v) && Proper(e, registry.authorized, scope, p))
              && (InOneFile(e, p, g, at, log.c, v) ==>
                    (r.value.1.issues == [] <==> Proper(e, registry.authorized, scope, p)))
    ensures SignAll(e, p).Ok? && p.orderId != [] && p.fill.orderId != [] && p.fill.orderId != p.orderId ==>
              ScanPhase(Listed(old(log.view).live), p.orderId, PHASE_EXECUTION) == None ==>
                r.Ok? && !r.value.0.chainValid
  {
    hide SignAll, LoopsEnd, AfterTrade, InOneFile, Proper, ScanPhase, ScanFlow, Listed, Scope, Issues, FlowTests;
    hide Completes, ChainValid, Raises, Made, AllPhases, DiskOf;
    ghost var v, t, scope := log.view, registry.authorized, Scope(p.orderId, accountId);
    var _ :- SignAndLog(e, log, p, at);
    ghost var g := SignAll(e, p).value;
    ghost var flow := ScanFlow(Listed(log.view.live), p.orderId);
    SignAllIsMade(e, p, g);
    if p.fill.orderId == p.orderId {
      TradeAloneCertifiedIff(e, t, scope, p, g, at, log.c, v);
      CompletionAgrees(e, Some(t), scope, flow);
    } else if ScanPhase(Listed(v.live), p.orderId, PHASE_EXECUTION) == None {
      MisfiledNotCertified(e, t, scope, p, g, at, log.c, v);
      CompletionAgrees(e, Some(t), scope, flow);
    }
    var report :- VerifyTradeFlow(e, p.orderId, log, registry, accountId);
    var tampering :- DetectTampering(e, p.orderId, log, registry, accountId);
    return Ok((report, tampering));
  }

  // ----- the stored proofs -----

  /** The proof that is stored beside a payload. */
  ghost predicate ProofIs(proof: Dict, seedHash: string, window: Json) {
    && proof.fields.Keys == {"seed_commitment", "key_temporal_window"}
    && proof.Get("seed_commitment") == Some(Str(seedHash)) && proof.Get("key_temporal_window") == Some(window)
  }

  /** A value that is missing or counts as false is passed over. */
  predicate Skipped(value: Option<Json>) {
    value.Some? ==> value.value in {Null, Bool(false), Num(0), Str(""), Arr([]), Obj(map[])}
  }

  /** The proof has the first seed hash and the first window that are not passed over. */
  lemma ProofSeed(data: Dict, seedHash: string, window: Json)
    requires seedHash != [] && Truthy(window)
    requires || data.Get("quantum_seed_commitment") == Some(Str(seedHash))
             || (Skipped(data.Get("quantum_seed_commitment"))
                 && data.Get("execution_quantum_seed_commitment") == Some(Str(seedHash)))
    requires || data.Get("key_temporal_window") == Some(window)
             || (Skipped(data.Get("key_temporal_window")) && data.Get("settlement_temporal_window") == Some(window))
    ensures ProofIs(ExtractProof(data), seedHash, window)
  {
    FirstOrSecond(data.Get("quantum_seed_commitment"), data.Get("execution_quantum_seed_commitment"),
                  [data.Get("settlement_quantum_seed_commitment")], Str(seedHash), Str(""));
    FirstOrSecond(data.Get("key_temporal_window"), data.Get("settlement_temporal_window"), [], window, Obj(map[]));
    var a, b := data.Get("quantum_seed_commitment"), data.Get("execution_quantum_seed_commitment");
    assert [data.Get("key_temporal_window"), data.Get("settlement_temporal_window")] + []
        == [data.Get("key_temporal_window"), data.Get("settlement_temporal_window")];
    assert [a, b] + [data.Get("settlement_quantum_seed_commitment")]
        == [a, b, data.Get("settlement_quantum_seed_commitment")];
  }

  lemma FirstOrSecond(first: Option<Json>, second: Option<Json>, more: seq<Option<Json>>, value: Json, default: Json)
    requires Truthy(value) && (first == Some(value) || (Skipped(first) && second == Some(value)))
    ensures FirstTruthy([first, second] + more, default) == value
  {
    if first.Some? { FalsyValues(first.value); }
    assert ([first, second] + more)[1..] == [second] + more;
  }

  lemma WindowTrue(c: SeedCommitment)
    ensures Truthy(c.Window())
  {
    assert c.Window().Get("created_at").Some?;
  }

  /** What the log stores as proofs of a trade: for commitment and execution the hash of their own seed
      and their own window, but for a settlement, beside its own window, the hash that it was told for
      the execution, because that key is looked for first. */
  lemma ProofsStored(e: Primitives, p: Plan, g: Signed, at: Moments)
    requires p.commitKey.Record(e).Accepted() && p.executeKey.Record(e).Accepted() && p.claimedExecute != []
    ensures ProofIs(CommitCall(e, p, g.commitment, at.commit).entry.quantumProof,
                    p.commitKey.seed.Hash(e), p.commitKey.Record(e).Window())
    ensures ProofIs(ExecuteCall(e, p, g.commitment, g.execution, at.execute).entry.quantumProof,
                    p.executeKey.seed.Hash(e), p.executeKey.Record(e).Window())
    ensures ProofIs(SettleCall(e, p, g, at.settle).entry.quantumProof,
                    p.claimedExecute, p.settleKey.Record(e).Window())
  {
    hide Commitment.Payload, Execution.Attestation, Settlement.Payload, ExtractProof, ProofIs, HexOfBytes;
    CommitmentProof(e, p);
    ExecutionProof(e, p, g.commitment);
    SettlementProof(e, p, g.commitment, g.execution, g.broker);
  }

  lemma CommitmentProof(e: Primitives, p: Plan)
    requires p.commitKey.Record(e).Accepted()
    ensures ProofIs(ExtractProof(p.CommitmentPayload(e)), p.commitKey.seed.Hash(e), p.commitKey.Record(e).Window())
  {
    hide Commitment.Payload, ExtractProof, ProofIs, HexOfBytes;
    var c := p.commitKey.Record(e);
    Commitment.PayloadFields(e, p.orderId, p.tradeDetails, p.before, c, p.reasoningHash, p.committedAt);
    WindowTrue(c);
    ProofSeed(p.CommitmentPayload(e), c.seedHash, c.Window());
  }

  lemma ExecutionProof(e: Primitives, p: Plan, commitment: Dict)
    requires p.executeKey.Record(e).Accepted()
    ensures ProofIs(ExtractProof(p.ExecutionPayload(e, commitment)), p.executeKey.seed.Hash(e), p.executeKey.Record(e).Window())
  {
    hide ExtractProof, ProofIs, HexOfBytes, Print, Utf8;
    var c := p.executeKey.Record(e);
    WindowTrue(c);
    ProofSeed(p.ExecutionPayload(e, commitment), c.seedHash, c.Window());
  }

  lemma SettlementProof(e: Primitives, p: Plan, c: Dict, x: Dict, b: Dict)
    requires p.claimedExecute != []
    ensures ProofIs(ExtractProof(p.SettlementPayload(e, c, x, b)), p.claimedExecute, p.settleKey.Record(e).Window())
  {
    hide ExtractProof, ProofIs, Settlement.FlowMerkle, HexOfBytes;
    WindowTrue(p.settleKey.Record(e));
    ProofSeed(p.SettlementPayload(e, c, x, b), p.claimedExecute, p.settleKey.Record(e).Window());
  }
}
