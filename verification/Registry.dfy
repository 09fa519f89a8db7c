/** The out-of-band registry of the keys that may sign for an account. */
module Registry {
  import opened Outcomes

  type Table = map<string, set<string>>

  function LowerChar(c: char): char {
    if 'A' <= c <= 'Z' then (c as int + 32) as char else c
  }

  /** `text.lower()` on ASCII text. */
  function Lower(t: string): (r: string)
    ensures |r| == |t|
    ensures forall i :: 0 <= i < |t| ==> r[i] == LowerChar(t[i])
  {
    seq(|t|, i requires 0 <= i < |t| => LowerChar(t[i]))
  }

  /** The pattern of a compressed key: 02 or 03, then 64 lower-case hexadecimal digits. Its `$` also
      matches in front of a final line break. */
  predicate IsPubkey(k: string) {
    && (|k| == 66 || (|k| == 67 && k[66] == '\n'))
    && k[0] == '0' && (k[1] == '2' || k[1] == '3')
    && forall i :: 2 <= i < 66 ==> '0' <= k[i] <= '9' || 'a' <= k[i] <= 'f'
  }

  /** A text is a key exactly when it is 02 or 03 followed by 64 digits, with a line break or without. */
  lemma PubkeyMeans(k: string)
    ensures IsPubkey(k) <==> exists body :: IsDigits(body) && (k == "02" + body || k == "03" + body
                                                               || k == "02" + body + "\n" || k == "03" + body + "\n")
  {
    if IsPubkey(k) {
      var body := k[2..66];
      assert IsDigits(body);
      assert k[..2] == "02" || k[..2] == "03";
      assert k == k[..2] + body || k == k[..2] + body + "\n" by {
        assert k == k[..2] + k[2..66] + k[66..];
      }
    }
  }

  /** 64 lower-case hexadecimal digits. */
  ghost predicate IsDigits(body: string) {
    |body| == 64 && forall i :: 0 <= i < 64 ==> body[i] in "0123456789abcdef"
  }

  /** Lower-casing keeps what has no capitals, and the broker's scope has the documented prefix. */
  lemma LowerExamples()
    ensures Lower("02aBcDeF") == "02abcdef" && BrokerScope("A") == "broker:A"
  {
  }

  function Keys(t: Table, account: string): set<string> {
    if account in t then t[account] else {}
  }

  predicate CanRegister(account: string, pubkey: string) {
    account != [] && IsPubkey(Lower(pubkey))
  }

  /** `is_authorized`. */
  predicate Authorized(t: Table, account: string, pubkey: string) {
    account != [] && pubkey != [] && Lower(pubkey) in Keys(t, account)
  }

  function BrokerScope(scope: string): string {
    "broker:" + scope
  }

  /** `is_broker_authorized`. */
  predicate BrokerAuthorized(t: Table, scope: string, pubkey: string) {
    Authorized(t, BrokerScope(scope), pubkey)
  }

  class AccountKeyRegistry {
    var authorized: Table

    constructor ()
      ensures authorized == map[]
    {
      authorized := map[];
    }

    /** `register`. */
    method Register(account: string, pubkey: string) returns (r: Result<()>)
      modifies this
      ensures authorized == Apply(old(authorized), Op.Register(account, pubkey))
      ensures r == if account == [] then Err(EmptyAccount)
                   else if !IsPubkey(Lower(pubkey)) then Err(MalformedPubkey)
                   else Ok(())
    {
      if account == [] { return Err(EmptyAccount); }
      var key := Lower(pubkey);
      if !IsPubkey(key) { return Err(MalformedPubkey); }
      if account !in authorized { authorized := authorized[account := {}]; }
      authorized := authorized[account := authorized[account] + {key}];
      return Ok(());
    }

    /** `revoke`. */
    method Revoke(account: string, pubkey: string)
      modifies this
      ensures authorized == Apply(old(authorized), Op.Revoke(account, pubkey))
    {
      if account in authorized {
        authorized := authorized[account := authorized[account] - {Lower(pubkey)}];
      }
    }
  }

  // ----- runs of operations -----

  datatype Op = Register(account: string, pubkey: string) | Revoke(account: string, pubkey: string)

  /** The table after an operation; a registration that raises changes nothing. */
  function Apply(t: Table, op: Op): Table {
    match op
    case Register(a, k) =>
      if CanRegister(a, k) then t[a := Keys(t, a) + {Lower(k)}] else t
    case Revoke(a, k) =>
      if a in t then t[a := t[a] - {Lower(k)}] else t
  }

  function Run(ops: seq<Op>): Table {
    if ops == [] then map[] else Apply(Run(ops[..|ops| - 1]), ops[|ops| - 1])
  }

  predicate Grants(op: Op, account: string, pubkey: string) {
    && op.Register? && CanRegister(op.account, op.pubkey)
    && op.account == account && Lower(op.pubkey) == Lower(pubkey)
  }

  predicate Withdraws(op: Op, account: string, pubkey: string) {
    op.Revoke? && op.account == account && Lower(op.pubkey) == Lower(pubkey)
  }

  /** Among the operations that succeeded on this scope and lower-cased key, the last is a
      registration. */
  ghost predicate LastGrants(ops: seq<Op>, account: string, pubkey: string) {
    exists i :: 0 <= i < |ops| && Grants(ops[i], account, pubkey)
      && forall j :: i < j < |ops| ==> !Withdraws(ops[j], account, pubkey)
  }

  lemma LowerKeepsEmpty(a: string, b: string)
    requires Lower(a) == Lower(b)
    ensures a == [] <==> b == []
  {
    assert |a| == |Lower(a)| && |b| == |Lower(b)|;
  }

  lemma AuthorizedStep(t: Table, op: Op, account: string, pubkey: string)
    ensures Authorized(Apply(t, op), account, pubkey)
            <==> Grants(op, account, pubkey) || (Authorized(t, account, pubkey) && !Withdraws(op, account, pubkey))
  {
    if op.Register? && Lower(op.pubkey) == Lower(pubkey) { LowerKeepsEmpty(op.pubkey, pubkey); }
  }

  lemma LastGrantsStep(ops: seq<Op>, account: string, pubkey: string)
    requires ops != []
    ensures var last := ops[|ops| - 1];
            LastGrants(ops, account, pubkey)
            <==> Grants(last, account, pubkey)
                 || (LastGrants(ops[..|ops| - 1], account, pubkey) && !Withdraws(last, account, pubkey))
  {
    hide Grants, Withdraws;
    var init, n := ops[..|ops| - 1], |ops| - 1;
    if Grants(ops[n], account, pubkey) {
      assert LastGrants(ops, account, pubkey);
    } else if LastGrants(ops, account, pubkey) {
      var i :| 0 <= i < |ops| && Grants(ops[i], account, pubkey)
        && forall j :: i < j < |ops| ==> !Withdraws(ops[j], account, pubkey);
      assert Grants(init[i], account, pubkey);
      assert forall j :: i < j < |init| ==> init[j] == ops[j];
    }
  }

  /** A key is authorised for a scope exactly when the latest successful operation on that scope and
      lower-cased key was a registration. */
  lemma {:induction false} AuthorizedIffLastGrants(ops: seq<Op>, account: string, pubkey: string)
    ensures Authorized(Run(ops), account, pubkey) <==> LastGrants(ops, account, pubkey)
  {
    if ops != [] {
      hide Authorized, LastGrants, Grants, Withdraws, Apply;
      var init := ops[..|ops| - 1];
      AuthorizedIffLastGrants(init, account, pubkey);
      AuthorizedStep(Run(init), ops[|ops| - 1], account, pubkey);
      LastGrantsStep(ops, account, pubkey);
    }
  }

  /** Every key authorised by the first table is authorised by the second. */
  ghost predicate Within(t: Table, u: Table) {
    forall a, k :: Authorized(t, a, k) ==> Authorized(u, a, k)
  }

  lemma RegisterGrows(t: Table, account: string, pubkey: string)
    ensures Within(t, Apply(t, Register(account, pubkey)))
  {
  }

  lemma RevokeShrinks(t: Table, account: string, pubkey: string)
    ensures Within(Apply(t, Revoke(account, pubkey)), t)
  {
  }

  /** Some key passes as a broker's of the scope. */
  ghost predicate HasBroker(t: Table, scope: string) {
    exists k :: BrokerAuthorized(t, scope, k)
  }

  /** Over every run: a key passes as a broker's of a scope exactly when the latest successful operation
      on it under the name "broker:" followed by the scope was a registration. So the two namespaces
      are apart exactly while no account is registered under such a name: then no key ever passes as
      a broker's, and the first key registered under it, for whatever account, does. */
  lemma BrokerNamespace(ops: seq<Op>, scope: string)
    ensures forall k :: BrokerAuthorized(Run(ops), scope, k) <==> LastGrants(ops, BrokerScope(scope), k)
    ensures (exists n :: 0 <= n <= |ops| && HasBroker(Run(ops[..n]), scope))
            <==> exists op :: op in ops && Registers(op, BrokerScope(scope))
  {
    hide Authorized, LastGrants, Run, BrokerScope, HasBroker, Registers;
    forall k ensures BrokerAuthorized(Run(ops), scope, k) <==> LastGrants(ops, BrokerScope(scope), k) {
      AuthorizedIffLastGrants(ops, BrokerScope(scope), k);
    }
    if op :| op in ops && Registers(op, BrokerScope(scope)) {
      var i :| 0 <= i < |ops| && ops[i] == op;
      RegisteredPasses(ops, i, scope);
      assert HasBroker(Run(ops[..i + 1]), scope);
    } else {
      forall n | 0 <= n <= |ops| ensures !HasBroker(Run(ops[..n]), scope) {
        NeverRegistered(ops[..n], scope);
      }
    }
  }

  /** The operation registers a key for the account and does not raise. */
  predicate Registers(op: Op, account: string) {
    op.Register? && op.account == account && CanRegister(op.account, op.pubkey)
  }

  lemma RegisteredPasses(ops: seq<Op>, i: nat, scope: string)
    requires i < |ops| && Registers(ops[i], BrokerScope(scope))
    ensures HasBroker(Run(ops[..i + 1]), scope)
  {
    hide Run, Authorized;
    AuthorizedIffLastGrants(ops[..i + 1], BrokerScope(scope), ops[i].pubkey);
    assert Grants(ops[..i + 1][i], BrokerScope(scope), ops[i].pubkey);
    assert BrokerAuthorized(Run(ops[..i + 1]), scope, ops[i].pubkey);
  }

  lemma NeverRegistered(ops: seq<Op>, scope: string)
    requires forall op :: op in ops ==> !Registers(op, BrokerScope(scope))
    ensures !HasBroker(Run(ops), scope)
  {
    hide Run, Authorized;
    forall k ensures !BrokerAuthorized(Run(ops), scope, k) {
      AuthorizedIffLastGrants(ops, BrokerScope(scope), k);
      assert forall i :: 0 <= i < |ops| ==> !Registers(ops[i], BrokerScope(scope));
    }
  }

  /** After any run, a text that registers authorises its first 66 characters, the key itself, exactly
      when it is no longer than these, or they were registered before: a line break behind the key is
      accepted but registers another text. */
  lemma LineBreakKey(ops: seq<Op>, account: string, text: string)
    requires CanRegister(account, text)
    ensures |text| == 66 || (|text| == 67 && text[66] == '\n')
    ensures var after := Run(ops + [Register(account, text)]);
            && Authorized(after, account, text)
            && (Authorized(after, account, text[..66]) <==> |text| == 66 || LastGrants(ops, account, text[..66]))
  {
    var all, key := ops + [Register(account, text)], text[..66];
    assert all[..|all| - 1] == ops;
    assert Lower(text)[66..] == [] || LowerChar(text[66]) == '\n';
    LowerKeepsEmpty(text, text);
    AuthorizedStep(Run(ops), Register(account, text), account, text);
    AuthorizedStep(Run(ops), Register(account, text), account, key);
    AuthorizedIffLastGrants(ops, account, key);
    if |text| == 66 {
      assert key == text;
    } else {
      assert |Lower(key)| != |Lower(text)|;
    }
  }

  /** The text of a key with a line break behind it does register. */
  lemma LineBreakAccepted(account: string, key: string)
    requires CanRegister(account, key) && |key| == 66
    ensures CanRegister(account, key + "\n")
  {
    assert forall i :: 0 <= i < 66 ==> Lower(key + "\n")[i] == Lower(key)[i];
  }
}
