/**
 The funding ledger: the counters a contract keeps as deposits come and go, the tabulation
 an auditor makes from scratch, and solvency from the proposal to the settlement.
 */
module Ledger {
  import opened Wrappers
  import opened Proposal
  import opened Contract

  /* ---- The auditor's tabulation ---- */

  datatype Tab = Tab(vinCount: int, fundValue: real, txFees: real, txVsize: int, txTotal: real)

  function Confirmed(funds: seq<Deposit>): seq<Deposit> {
    if funds == [] then []
    else if funds[0].confirmed then [funds[0]] + Confirmed(funds[1..])
    else Confirmed(funds[1..])
  }

  function Pending(funds: seq<Deposit>): seq<Deposit> {
    if funds == [] then []
    else if funds[0].confirmed then Pending(funds[1..])
    else [funds[0]] + Pending(funds[1..])
  }

  /** The fee on the largest template and on each input. */
  function TxFees(t: Terms, size: int, n: int): real {
    size as real * t.feerate + n as real * t.vinTxfee
  }

  function TabulateFunds(c: ContractData, funds: seq<Deposit>, enc: Encoder): Tab
    requires c.terms.outputs != []
  {
    Tabulated(c.terms, funds, enc)
  }

  /** The tabulation looks at the terms only. */
  function Tabulated(t: Terms, funds: seq<Deposit>, enc: Encoder): Tab
    requires t.outputs != []
  {
    var size := GetMaxVoutSize(t.outputs, enc);
    var confirmed := Confirmed(funds);
    var n := |confirmed|;
    var txFees := TxFees(t, size, n);
    Tab(n, TotalValue(confirmed), txFees, size + n * SPEND_TXIN_SIZE, t.subtotal + txFees)
  }

  predicate VerifyFunding(c: ContractData, funds: seq<Deposit>, enc: Encoder)
    requires c.terms.outputs != []
  {
    var tab := TabulateFunds(c, funds, enc);
    && c.funds.vinCount == tab.vinCount
    && c.funds.pend + c.funds.conf == tab.fundValue
    && c.funds.txFees == tab.txFees
    && c.funds.txTotal == tab.txTotal
    && c.funds.txVsize == tab.txVsize
  }

  function GetContractValue(c: ContractData): real {
    c.terms.subtotal + c.terms.feerate * c.terms.txBsize as real
  }

  function GetContractBalance(c: ContractData): real {
    GetContractValue(c) + (c.funds.vinCount as real * c.terms.vinTxfee - c.funds.conf)
  }

  /* ---- The ledger along a run of deposits ---- */

  datatype FundOp = Add(deposit: Deposit) | Confirm(index: nat) | Remove(index: nat)

  datatype Account = Account(contract: ContractData, deposits: seq<Deposit>)

  /** Only a pending deposit is confirmed, and only a deposit of the contract is removed. */
  predicate Permitted(a: Account, op: FundOp) {
    match op
    case Add(_) => true
    case Confirm(i) => i < |a.deposits| && !a.deposits[i].confirmed
    case Remove(i) => i < |a.deposits|
  }

  function ApplyFund(a: Account, op: FundOp): Account
    requires Permitted(a, op)
  {
    match op
    case Add(d) => Account(AddContractFunds(a.contract, d), a.deposits + [d])
    case Confirm(i) =>
      var d := a.deposits[i].(confirmed := true);
      Account(ConfirmContractFunds(a.contract, d).value, a.deposits[i := d])
    case Remove(i) =>
      Account(RemContractFunds(a.contract, a.deposits[i]), a.deposits[..i] + a.deposits[i + 1..])
  }

  ghost predicate AllPermitted(a: Account, ops: seq<FundOp>)
    decreases |ops|
  {
    ops == [] || (Permitted(a, ops[0]) && AllPermitted(ApplyFund(a, ops[0]), ops[1..]))
  }

  function ApplyFunds(a: Account, ops: seq<FundOp>): Account
    requires AllPermitted(a, ops)
    decreases |ops|
  {
    if ops == [] then a else ApplyFunds(ApplyFund(a, ops[0]), ops[1..])
  }

  /** A record whose sizes and fees are those its own outputs give. */
  ghost predicate Priced(c: ContractData, enc: Encoder) {
    && c.terms.outputs != []
    && c.terms.txBsize == GetMaxVoutSize(c.terms.outputs, enc)
    && c.terms.vinTxfee == c.terms.feerate * 59.0
  }

  /** The counters of `n` confirmed inputs worth `conf` with `pend` still pending; the total also counts `conf`. */
  ghost predicate Counts(t: Terms, f: Funds, size: int, n: int, conf: real, pend: real) {
    var txFees := TxFees(t, size, n);
    f == Funds(pend, conf, txFees, t.subtotal + txFees + conf, size + n * SPEND_TXIN_SIZE, n)
  }

  lemma CountsAdd(t: Terms, f: Funds, size: int, n: int, conf: real, pend: real, d: Deposit)
    requires Counts(t, f, size, n, conf, pend)
    ensures if d.confirmed
            then Counts(t, AddFunds(f, d, t.vinTxfee), size, n + 1, conf + d.value, pend)
            else Counts(t, AddFunds(f, d, t.vinTxfee), size, n, conf, pend + d.value)
  {
    assert (n + 1) as real * t.vinTxfee == n as real * t.vinTxfee + t.vinTxfee;
  }

  lemma CountsConfirm(t: Terms, f: Funds, size: int, n: int, conf: real, pend: real, d: Deposit)
    requires Counts(t, f, size, n, conf, pend) && d.confirmed
    ensures var f' := AddFunds(f, d, t.vinTxfee);
            Counts(t, f'.(pend := f'.pend - d.value), size, n + 1, conf + d.value, pend - d.value)
  {
    CountsAdd(t, f, size, n, conf, pend, d);
  }

  lemma CountsRemove(t: Terms, f: Funds, size: int, n: int, conf: real, pend: real, d: Deposit)
    requires Counts(t, f, size, n, conf, pend)
    ensures if d.confirmed
            then Counts(t, RemFunds(f, d, t.vinTxfee), size, n - 1, conf - d.value, pend)
            else Counts(t, RemFunds(f, d, t.vinTxfee), size, n, conf, pend - d.value)
  {
    assert (n - 1) as real * t.vinTxfee == n as real * t.vinTxfee - t.vinTxfee;
  }

  /** The counters are those of the deposits. */
  ghost predicate Balanced(a: Account, enc: Encoder)
    requires a.contract.terms.outputs != []
  {
    var confirmed := Confirmed(a.deposits);
    Counts(a.contract.terms, a.contract.funds, GetMaxVoutSize(a.contract.terms.outputs, enc),
           |confirmed|, TotalValue(confirmed), TotalValue(Pending(a.deposits)))
  }

  /** What balance means in the auditor's terms: the tabulation, with the confirmed funds on top of the total. */
  lemma BalancedTabulates(a: Account, enc: Encoder)
    requires a.contract.terms.outputs != []
    ensures Balanced(a, enc) <==>
      var f, tab := a.contract.funds, TabulateFunds(a.contract, a.deposits, enc);
      && f.vinCount == tab.vinCount
      && f.conf == tab.fundValue
      && f.pend == TotalValue(Pending(a.deposits))
      && f.txFees == tab.txFees
      && f.txVsize == tab.txVsize
      && f.txTotal == tab.txTotal + f.conf
  {}

  /* ---- Deposits in order ---- */

  lemma {:induction false} TotalConcat(a: seq<Deposit>, b: seq<Deposit>)
    ensures TotalValue(a + b) == TotalValue(a) + TotalValue(b)
  {
    if a == [] {
      assert a + b == b;
    } else {
      assert (a + b)[1..] == a[1..] + b;
      TotalConcat(a[1..], b);
    }
  }

  lemma {:induction false} SplitConcat(a: seq<Deposit>, b: seq<Deposit>)
    ensures Confirmed(a + b) == Confirmed(a) + Confirmed(b)
    ensures Pending(a + b) == Pending(a) + Pending(b)
  {
    if a == [] {
      assert a + b == b;
    } else {
      assert (a + b)[0] == a[0] && (a + b)[1..] == a[1..] + b;
      SplitConcat(a[1..], b);
      if a[0].confirmed {
        Associative([a[0]], Confirmed(a[1..]), Confirmed(b));
      } else {
        Associative([a[0]], Pending(a[1..]), Pending(b));
      }
    }
  }

  /** What one deposit in the middle contributes. */
  lemma Contribution(before: seq<Deposit>, d: Deposit, after: seq<Deposit>)
    ensures var all, rest := before + [d] + after, before + after;
            && |Confirmed(all)| == |Confirmed(rest)| + (if d.confirmed then 1 else 0)
            && TotalValue(Confirmed(all)) == TotalValue(Confirmed(rest)) + (if d.confirmed then d.value else 0.0)
            && TotalValue(Pending(all)) == TotalValue(Pending(rest)) + (if d.confirmed then 0.0 else d.value)
  {
    SplitConcat(before + [d], after);
    SplitConcat(before, [d]);
    SplitConcat(before, after);
    TotalConcat(Confirmed(before + [d]), Confirmed(after));
    TotalConcat(Confirmed(before), Confirmed([d]));
    TotalConcat(Confirmed(before), Confirmed(after));
    TotalConcat(Pending(before + [d]), Pending(after));
    TotalConcat(Pending(before), Pending([d]));
    TotalConcat(Pending(before), Pending(after));
    assert [d][1..] == [];
    assert Confirmed([d]) == (if d.confirmed then [d] else []);
    assert Pending([d]) == (if d.confirmed then [] else [d]);
  }

  lemma BalancedIf(a: Account, enc: Encoder, n: int, conf: real, pend: real)
    requires a.contract.terms.outputs != []
    requires Counts(a.contract.terms, a.contract.funds, GetMaxVoutSize(a.contract.terms.outputs, enc), n, conf, pend)
    requires n == |Confirmed(a.deposits)| && conf == TotalValue(Confirmed(a.deposits))
        && pend == TotalValue(Pending(a.deposits))
    ensures Balanced(a, enc)
  {
  }

  lemma AddBalances(a: Account, d: Deposit, enc: Encoder)
    requires a.contract.terms.outputs != [] && Balanced(a, enc)
    ensures Balanced(ApplyFund(a, Add(d)), enc)
  {
    var ds := a.deposits;
    var n, conf, pend := |Confirmed(ds)|, TotalValue(Confirmed(ds)), TotalValue(Pending(ds));
    Contribution(ds, d, []);
    assert ds + [d] + [] == ds + [d] && ds + [] == ds;
    CountsAdd(a.contract.terms, a.contract.funds, GetMaxVoutSize(a.contract.terms.outputs, enc), n, conf, pend, d);
    if d.confirmed {
      BalancedIf(ApplyFund(a, Add(d)), enc, n + 1, conf + d.value, pend);
    } else {
      BalancedIf(ApplyFund(a, Add(d)), enc, n, conf, pend + d.value);
    }
  }

  lemma ConfirmContribution(ds: seq<Deposit>, i: nat)
    requires i < |ds| && !ds[i].confirmed
    ensures var ds' := ds[i := ds[i].(confirmed := true)];
            && |Confirmed(ds')| == |Confirmed(ds)| + 1
            && TotalValue(Confirmed(ds')) == TotalValue(Confirmed(ds)) + ds[i].value
            && TotalValue(Pending(ds')) == TotalValue(Pending(ds)) - ds[i].value
  {
    var d := ds[i].(confirmed := true);
    Contribution(ds[..i], ds[i], ds[i + 1..]);
    Contribution(ds[..i], d, ds[i + 1..]);
    assert ds == ds[..i] + [ds[i]] + ds[i + 1..];
    assert ds[i := d] == ds[..i] + [d] + ds[i + 1..];
  }

  lemma ConfirmBalances(a: Account, i: nat, enc: Encoder)
    requires a.contract.terms.outputs != [] && Balanced(a, enc) && Permitted(a, Confirm(i))
    ensures Balanced(ApplyFund(a, Confirm(i)), enc)
  {
    var ds, d := a.deposits, a.deposits[i].(confirmed := true);
    var n, conf, pend := |Confirmed(ds)|, TotalValue(Confirmed(ds)), TotalValue(Pending(ds));
    ConfirmContribution(ds, i);
    CountsConfirm(a.contract.terms, a.contract.funds, GetMaxVoutSize(a.contract.terms.outputs, enc), n, conf, pend, d);
    BalancedIf(ApplyFund(a, Confirm(i)), enc, n + 1, conf + d.value, pend - d.value);
  }

  lemma RemoveBalances(a: Account, i: nat, enc: Encoder)
    requires a.contract.terms.outputs != [] && Balanced(a, enc) && Permitted(a, Remove(i))
    ensures Balanced(ApplyFund(a, Remove(i)), enc)
  {
    var ds, d := a.deposits, a.deposits[i];
    var n, conf, pend := |Confirmed(ds)|, TotalValue(Confirmed(ds)), TotalValue(Pending(ds));
    Contribution(ds[..i], d, ds[i + 1..]);
    assert ds == ds[..i] + [d] + ds[i + 1..];
    CountsRemove(a.contract.terms, a.contract.funds, GetMaxVoutSize(a.contract.terms.outputs, enc), n, conf, pend, d);
    if d.confirmed {
      BalancedIf(ApplyFund(a, Remove(i)), enc, n - 1, conf - d.value, pend);
    } else {
      BalancedIf(ApplyFund(a, Remove(i)), enc, n, conf, pend - d.value);
    }
  }

  /** What funding never touches. */
  ghost predicate SameButFunds(c: ContractData, c': ContractData) {
    c' == c.(funds := c'.funds)
  }

  lemma {:induction false} ApplyFundsBalances(a: Account, ops: seq<FundOp>, enc: Encoder)
    requires AllPermitted(a, ops) && Priced(a.contract, enc) && Balanced(a, enc)
    ensures var a' := ApplyFunds(a, ops);
            SameButFunds(a.contract, a'.contract) && Balanced(a', enc)
    decreases |ops|
  {
    if ops != [] {
      match ops[0] {
        case Add(d) => AddBalances(a, d, enc);
        case Confirm(i) => ConfirmBalances(a, i, enc);
        case Remove(i) => RemoveBalances(a, i, enc);
      }
      ApplyFundsBalances(ApplyFund(a, ops[0]), ops[1..], enc);
    }
  }

  lemma CreatedIsPriced(
    config: CreateConfig, p: ProposalData, endorsements: seq<string>, signer: string, ids: Digests, enc: Encoder)
    requires p.paths != []
    ensures var c := CreateContract(config, p, endorsements, signer, ids, enc);
            Priced(c, enc) && Balanced(Account(c, []), enc)
  {
    TemplateIsPriced(config, p, endorsements, signer, ids, enc);
    StartsBalanced(CreateContract(config, p, endorsements, signer, ids, enc), enc);
  }

  lemma TemplateIsPriced(
    config: CreateConfig, p: ProposalData, endorsements: seq<string>, signer: string, ids: Digests, enc: Encoder)
    requires p.paths != []
    ensures var c := ContractTemplate(config, p, endorsements, signer, ids, enc);
            Priced(c, enc) && Counts(c.terms, c.funds, c.terms.txBsize, 0, 0.0, 0.0)
  {
  }

  lemma StartsBalanced(c: ContractData, enc: Encoder)
    requires Priced(c, enc) && Counts(c.terms, c.funds, c.terms.txBsize, 0, 0.0, 0.0)
    ensures Balanced(Account(c, []), enc)
  {
    assert Confirmed([]) == [] && Pending([]) == [];
  }

  /**
   After any sequence of added, confirmed and removed deposits the counters of a contract
   are those of the tabulation, with the confirmed funds on top of the total. The auditor's
   funding check therefore accepts the record exactly while no funds are counted on it.
   */
  lemma {:induction false} LedgerRefinesTabulation(
    config: CreateConfig, p: ProposalData, endorsements: seq<string>, signer: string, ids: Digests, enc: Encoder,
    ops: seq<FundOp>)
    requires p.paths != []
    requires AllPermitted(Account(CreateContract(config, p, endorsements, signer, ids, enc), []), ops)
    ensures var c := CreateContract(config, p, endorsements, signer, ids, enc);
            var a := ApplyFunds(Account(c, []), ops);
            && SameButFunds(c, a.contract) && Priced(a.contract, enc)
            && var f, tab := a.contract.funds, TabulateFunds(a.contract, a.deposits, enc);
            && f.vinCount == tab.vinCount && f.conf == tab.fundValue && f.pend == TotalValue(Pending(a.deposits))
            && f.txFees == tab.txFees && f.txVsize == tab.txVsize && f.txTotal == tab.txTotal + f.conf
            && (VerifyFunding(a.contract, a.deposits, enc)
               <==> a.contract.funds.conf == 0.0 && a.contract.funds.pend == 0.0)
  {
    var c := CreateContract(config, p, endorsements, signer, ids, enc);
    CreatedIsPriced(config, p, endorsements, signer, ids, enc);
    ApplyFundsBalances(Account(c, []), ops, enc);
    BalancedTabulates(ApplyFunds(Account(c, []), ops), enc);
  }

  /** Removing a deposit undoes adding it, on every field. */
  lemma {:induction false} RemoveUndoesAdd(c: ContractData, d: Deposit)
    ensures RemContractFunds(AddContractFunds(c, d), d) == c
    ensures AddContractFunds(RemContractFunds(c, d), d) == c
  {}

  /** Confirming a pending deposit is removing it and adding it confirmed. */
  lemma {:induction false} ConfirmIsReplace(c: ContractData, d: Deposit)
    requires !d.confirmed
    ensures ConfirmContractFunds(c, d.(confirmed := true))
        == Success(AddContractFunds(RemContractFunds(c, d), d.(confirmed := true)))
  {}

  /* ---- Securing ---- */

  lemma {:induction false} AllConfirmed(deposits: seq<Deposit>)
    requires forall d | d in deposits :: d.confirmed
    ensures Confirmed(deposits) == deposits && Pending(deposits) == []
  {
    if deposits != [] {
      assert deposits[0] in deposits;
      AllConfirmed(deposits[1..]);
    }
  }

  /** Whatever securing returns passes the auditor's funding check on the same deposits. */
  lemma {:induction false} SecuredVerifies(
    c: ContractData, deposits: seq<Deposit>, signer: string, updatedAt: int, enc: Encoder)
    requires Priced(c, enc) && SecureContract(c, deposits, signer, updatedAt).Success?
    ensures VerifyFunding(SecureContract(c, deposits, signer, updatedAt).value, deposits, enc)
  {
    AllConfirmed(deposits);
  }

  /** With all deposits confirmed, the contract can be secured exactly when nothing is owed on it. */
  lemma {:induction false} SecureIffPaid(a: Account, signer: string, updatedAt: int, enc: Encoder)
    requires Priced(a.contract, enc) && Balanced(a, enc) && !a.contract.cancel.canceled
    requires forall d | d in a.deposits :: d.confirmed
    ensures SecureContract(a.contract, a.deposits, signer, updatedAt).Success?
        <==> GetContractBalance(a.contract) <= 0.0
  {
    AllConfirmed(a.deposits);
    BalancedTabulates(a, enc);
    OwedIsShort(a.contract, a.deposits);
  }

  /** The balance is what securing would find missing. */
  lemma OwedIsShort(c: ContractData, deposits: seq<Deposit>)
    requires c.funds.vinCount == |deposits| && c.funds.conf == TotalValue(deposits)
    ensures var due := SecuredFunds(c.terms, deposits); GetContractBalance(c) == due.txTotal - due.conf
  {
    assert c.terms.vinTxfee * |deposits| as real == |deposits| as real * c.terms.vinTxfee;
  }

  /** One more confirmed deposit of the balance and its own input fee leaves nothing owed. */
  lemma {:induction false} BalanceDepositSettles(c: ContractData, dpid: string, covenant: Option<seq<PartialSig>>)
    ensures GetContractBalance(AddContractFunds(c,
        Deposit(dpid, GetContractBalance(c) + c.terms.vinTxfee, true, covenant))) == 0.0
  {}

  function Ceil(x: real): (n: int)
    ensures 0.0 <= n as real - x < 1.0
  {
    -((-x).Floor)
  }

  lemma {:induction false} EqualTotal(deposits: seq<Deposit>, value: real)
    requires forall d | d in deposits :: d.value == value
    ensures TotalValue(deposits) == |deposits| as real * value
  {
    if deposits != [] {
      assert deposits[0] in deposits;
      EqualTotal(deposits[1..], value);
      assert |deposits| as real == |deposits[1..]| as real + 1.0;
    }
  }

  lemma ShareCovers(k: int, value: real)
    requires k > 0
    ensures k as real * Ceil(value / k as real) as real >= value
  {
    var share := value / k as real;
    assert Ceil(share) as real >= share;
    assert k as real * share == value;
    assert k as real * (Ceil(share) as real - share) >= 0.0;
  }

  /** Any number of equal confirmed deposits, each of the rounded-up share and its input fee, secures a contract. */
  lemma {:induction false} EqualSharesSecure(c: ContractData, deposits: seq<Deposit>, signer: string, updatedAt: int)
    requires !c.cancel.canceled && deposits != []
    requires forall d | d in deposits ::
               d.confirmed && d.value == Ceil(GetContractValue(c) / |deposits| as real) as real + c.terms.vinTxfee
    ensures SecureContract(c, deposits, signer, updatedAt).Success?
  {
    var k := |deposits|;
    var share := Ceil(GetContractValue(c) / k as real) as real;
    EqualTotal(deposits, share + c.terms.vinTxfee);
    ShareCovers(k, GetContractValue(c));
    assert k as real * (share + c.terms.vinTxfee) == k as real * share + c.terms.vinTxfee * k as real;
  }

  /* ---- Solvency ---- */

  datatype SettlementTx = SettlementTx(vin: seq<Deposit>, vout: seq<TxOutput>)

  /** The combination of a funder's partial signature with the agent's, on the outputs of a path. */
  datatype TxWitness = TxWitness(psig: string, agent: string, output: seq<TxOutput>)

  datatype SignedInput = SignedInput(deposit: Deposit, signature: TxWitness)
  datatype SignedTx = SignedTx(vin: seq<SignedInput>, vout: seq<TxOutput>)

  function FindPsig(path: string, psigs: seq<PartialSig>): (r: Option<string>)
    ensures r.Some? <==> exists e | e in psigs :: e.path == path
    ensures r.Some? ==> PartialSig(path, r.value) in psigs
  {
    if psigs == [] then None
    else if psigs[0].path == path then Some(psigs[0].psig)
    else FindPsig(path, psigs[1..])
  }

  /** The partial signature a deposit holds for a path; None where the source throws. */
  function CovenantPsig(path: string, d: Deposit): Option<string> {
    match d.covenant
    case None => None
    case Some(psigs) => FindPsig(path, psigs)
  }

  /** The settlement exists exactly when its template does and every deposit signed for its path. */
  method GetSettlementTx(c: ContractData, deposits: seq<Deposit>, agent: string) returns (tx: Option<SignedTx>)
    ensures tx.Some? <==>
            && Settlement(c, deposits).Some?
            && forall d | d in deposits :: CovenantPsig(c.close.machineVout.value, d).Some?
    ensures tx.Some? ==>
      && tx.value.vout == Settlement(c, deposits).value.vout
      && |tx.value.vin| == |deposits|
      && forall i | 0 <= i < |deposits| ::
           tx.value.vin[i]
             == SignedInput(deposits[i],
                TxWitness(CovenantPsig(c.close.machineVout.value, deposits[i]).value, agent, tx.value.vout))
  {
    if !c.close.closed || c.close.machineVout.None? {
      return None;
    }
    var path := c.close.machineVout.value;
    var tmpl := FindTemplate(path, c.terms.outputs);
    if tmpl.None? {
      return None;
    }
    var vin: seq<SignedInput> := [];
    for i := 0 to |deposits|
      invariant |vin| == i
      invariant forall k | 0 <= k < i ::
                  && CovenantPsig(path, deposits[k]).Some?
                  && vin[k] == SignedInput(deposits[k],
                     TxWitness(CovenantPsig(path, deposits[k]).value, agent, tmpl.value.vouts))
    {
      var psig := CovenantPsig(path, deposits[i]);
      if psig.None? {
        return None;
      }
      vin := vin + [SignedInput(deposits[i], TxWitness(psig.value, agent, tmpl.value.vouts))];
    }
    return Some(SignedTx(vin, tmpl.value.vouts));
  }

  /** The transaction before it is signed: the outputs of the path, and an input for each deposit. */
  function Settlement(c: ContractData, deposits: seq<Deposit>): Option<SettlementTx> {
    if !c.close.closed || c.close.machineVout.None? then None
    else
      match FindTemplate(c.close.machineVout.value, c.terms.outputs)
      case None => None
      case Some(tmpl) => Some(SettlementTx(deposits, tmpl.vouts))
  }

  function TxFee(tx: SettlementTx): real {
    TotalValue(tx.vin) - OutputTotal(tx.vout)
  }

  function TxVsize(tx: SettlementTx, enc: Encoder): int {
    enc.size(tx.vout) + |tx.vin| * SPEND_TXIN_SIZE
  }

  lemma {:induction false} TemplateOf(
    p: ProposalData, names: seq<string>, fees: seq<PaymentEntry>, enc: Encoder, path: string)
    requires path in names
    ensures FindTemplate(path, CreateSpendTemplates(p, names, fees, enc))
         == Some(SpendTemplate(path, GetPathVouts(path, p.paths, p.payments + fees, enc)))
  {
    if path != names[0] {
      TemplateOf(p, names[1..], fees, enc, path);
    }
  }

  /** The fee that a rate calls for on a transaction of this size. */
  function FeeFor(rate: real, vsize: int): real {
    rate * vsize as real
  }

  /** What securing guarantees of the fee, as arithmetic on its terms. */
  lemma SecuredFee(t: Terms, deposits: seq<Deposit>)
    requires t.vinTxfee == t.feerate * SPEND_TXIN_SIZE as real
    requires SecuredFunds(t, deposits).conf >= SecuredFunds(t, deposits).txTotal
    ensures TotalValue(deposits) - t.subtotal >= FeeFor(t.feerate, SecuredFunds(t, deposits).txVsize)
  {
    var n, size := |deposits| as real, SPEND_TXIN_SIZE as real;
    assert SecuredFunds(t, deposits).txVsize as real == t.txBsize as real + n * size;
    assert t.feerate * (t.txBsize as real + n * size) == t.feerate * t.txBsize as real + t.vinTxfee * n by {
      assert t.feerate * (n * size) == (t.feerate * size) * n;
    }
  }

  /** What the templates of a checked proposal guarantee of a settlement. */
  lemma SettlementPays(
    p: ProposalData, fees: seq<PaymentEntry>, enc: Encoder, done: ContractData, deposits: seq<Deposit>,
    path: string)
    requires CheckPayments(p) && Permutes(enc) && path in GetPathNames(p.paths)
    requires done.terms.outputs == CreateSpendTemplates(p, GetPathNames(p.paths), fees, enc) && done.terms.outputs != []
    requires done.close.closed && done.close.machineVout == Some(path)
    ensures var tx := Settlement(done, deposits);
            && tx.Some? && tx.value.vin == deposits
            && OutputTotal(tx.value.vout) == p.value + GetPayTotal(fees)
            && PaysAsListed(tx.value.vout, path, p.paths, p.payments + fees)
            && enc.size(tx.value.vout) <= GetMaxVoutSize(done.terms.outputs, enc)
  {
    TemplateOf(p, GetPathNames(p.paths), fees, enc, path);
    PathPaysSubtotal(p, fees, path, enc);
    PathPaysAsListed(path, p.paths, p.payments + fees, enc);
  }

  /**
   What a settlement on a path pays: what the proposal lists for it, and the payments and fees,
   each to its address.
   */
  ghost predicate PaysOut(t: Terms, path: string, tx: SettlementTx) {
    PaysAsListed(tx.vout, path, t.proposal.paths, t.proposal.payments + t.fees)
  }

  /**
   The settlement exists, pays everyone what is listed, in all exactly the subtotal, and
   leaves the fee its size calls for.
   */
  ghost predicate Solvent(secured: ContractData, done: ContractData, deposits: seq<Deposit>, enc: Encoder) {
    var tx := Settlement(done, deposits);
    && tx.Some?
    && done.close.machineVout.Some? && PaysOut(secured.terms, done.close.machineVout.value, tx.value)
    && OutputTotal(tx.value.vout) == secured.terms.subtotal
    && TxFee(tx.value) >= FeeFor(secured.terms.feerate, secured.funds.txVsize)
    && enc.size(tx.value.vout) <= secured.terms.txBsize
    && TxVsize(tx.value, enc) <= secured.funds.txVsize
  }

  lemma SecuredCovers(c: ContractData, deposits: seq<Deposit>, signer: string, updatedAt: int)
    requires c.terms.vinTxfee == c.terms.feerate * SPEND_TXIN_SIZE as real
    requires SecureContract(c, deposits, signer, updatedAt).Success?
    ensures var secured := SecureContract(c, deposits, signer, updatedAt).value;
            && secured.terms == c.terms
            && secured.funds.txVsize == secured.terms.txBsize + |deposits| * SPEND_TXIN_SIZE
            && TotalValue(deposits) - secured.terms.subtotal >= FeeFor(secured.terms.feerate, secured.funds.txVsize)
  {
    SecuredFee(c.terms, deposits);
  }

  lemma SolventFromParts(secured: ContractData, done: ContractData, deposits: seq<Deposit>, enc: Encoder)
    requires var tx := Settlement(done, deposits);
             && tx.Some? && tx.value.vin == deposits
             && done.close.machineVout.Some? && PaysOut(secured.terms, done.close.machineVout.value, tx.value)
             && OutputTotal(tx.value.vout) == secured.terms.subtotal && enc.size(tx.value.vout) <= secured.terms.txBsize
    requires secured.funds.txVsize == secured.terms.txBsize + |deposits| * SPEND_TXIN_SIZE
    requires TotalValue(deposits) - secured.terms.subtotal >= FeeFor(secured.terms.feerate, secured.funds.txVsize)
    ensures Solvent(secured, done, deposits, enc)
  {
    var tx := Settlement(done, deposits);
    assert TxFee(tx.value) == TotalValue(deposits) - secured.terms.subtotal;
    assert TxVsize(tx.value, enc) == enc.size(tx.value.vout) + |deposits| * SPEND_TXIN_SIZE;
    assert TxVsize(tx.value, enc) <= secured.funds.txVsize;
  }

  lemma SecuredIsSolvent(
    p: ProposalData, fees: seq<PaymentEntry>, enc: Encoder, secured: ContractData, done: ContractData,
    deposits: seq<Deposit>, path: string)
    requires CheckPayments(p) && Permutes(enc) && path in GetPathNames(p.paths)
    requires secured.terms.proposal == p && secured.terms.fees == fees
    requires Priced(secured, enc) && secured.terms.subtotal == p.value + GetPayTotal(fees)
    requires secured.terms.outputs == CreateSpendTemplates(p, GetPathNames(p.paths), fees, enc)
    requires secured.funds.txVsize == secured.terms.txBsize + |deposits| * SPEND_TXIN_SIZE
    requires TotalValue(deposits) - secured.terms.subtotal >= FeeFor(secured.terms.feerate, secured.funds.txVsize)
    requires done.terms == secured.terms && done.close.closed && done.close.machineVout == Some(path)
    ensures Solvent(secured, done, deposits, enc)
  {
    SettlementPays(p, fees, enc, done, deposits, path);
    SolventFromParts(secured, done, deposits, enc);
  }

  /**
   From a proposal that passes the payments check to a secured contract, through any
   funding in between: the settlement on any path exists, pays each address what the
   proposal lists for that path and for the payments, in all exactly the subtotal, and leaves
   a fee of at least the fee rate times the contract's transaction size, which is no smaller
   than the size of that settlement.
   */
  lemma {:induction false} Solvency(
    config: CreateConfig, p: ProposalData, endorsements: seq<string>, signer: string, ids: Digests, enc: Encoder,
    ops: seq<FundOp>, deposits: seq<Deposit>, updatedAt: int, done: ContractData, path: string)
    requires p.paths != [] && CheckPayments(p) && Permutes(enc) && path in GetPathNames(p.paths)
    requires AllPermitted(Account(CreateContract(config, p, endorsements, signer, ids, enc), []), ops)
    requires var c := CreateContract(config, p, endorsements, signer, ids, enc);
             var secured := SecureContract(ApplyFunds(Account(c, []), ops).contract, deposits, signer, updatedAt);
             && secured.Success?
             && done.terms == secured.value.terms && done.close.closed && done.close.machineVout == Some(path)
    ensures var c := CreateContract(config, p, endorsements, signer, ids, enc);
            var secured := SecureContract(ApplyFunds(Account(c, []), ops).contract, deposits, signer, updatedAt).value;
            Solvent(secured, done, deposits, enc)
  {
    var c := CreateContract(config, p, endorsements, signer, ids, enc);
    CreatedIsPriced(config, p, endorsements, signer, ids, enc);
    ApplyFundsBalances(Account(c, []), ops, enc);
    var secured := SecureContract(ApplyFunds(Account(c, []), ops).contract, deposits, signer, updatedAt).value;
    SecuredCovers(ApplyFunds(Account(c, []), ops).contract, deposits, signer, updatedAt);
    SecuredIsSolvent(p, config.fees, enc, secured, done, deposits, path);
  }
}
