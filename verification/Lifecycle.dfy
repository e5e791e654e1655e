/**
 Signed projections along the life of a contract: later steps leave every earlier projection
 as it was signed, except that a cancellation can never be verified.
 */
module Lifecycle {
  import opened Wrappers
  import opened Contract
  import opened Proposal
  import M = Machine

  datatype Step =
    | AddFundsStep(deposit: Deposit)
    | ConfirmStep(deposit: Deposit)
    | RemoveStep(deposit: Deposit)
    | SecureStep(deposits: seq<Deposit>, at: int)
    | ActivateStep(at: int, vmid: string)
    | CloseStep(vmdata: M.MachineData)
    | SpendStep(txhex: string, txid: string, at: int)
    | SettleStep(txstatus: Option<TxStatus>, at: int)
    | CancelStep(at: int)

  /** The steps of a life in order: funding, then each status once; a cancellation at any point, once. */
  predicate InOrder(c: ContractData, step: Step) {
    match step
    case AddFundsStep(_) => !c.funding.secured
    case ConfirmStep(_) => !c.funding.secured
    case RemoveStep(_) => !c.funding.secured
    case SecureStep(_, _) => !c.funding.secured
    case ActivateStep(_, _) => c.funding.secured && !c.engine.activated
    case CloseStep(vm) => c.engine.activated && !c.close.closed && (vm.closed ==> vm.closedAt.Some?)
    case SpendStep(_, _, _) => c.close.closed && !c.spend.spent
    case SettleStep(_, _) => c.spend.spent && !c.settle.settled
    case CancelStep(_) => !c.cancel.canceled
  }

  /** One step; a refused step changes nothing. */
  function Take(c: ContractData, step: Step, signer: string): ContractData {
    match step
    case AddFundsStep(d) => AddContractFunds(c, d)
    case ConfirmStep(d) => (match ConfirmContractFunds(c, d) case Success(next) => next case Failure(_) => c)
    case RemoveStep(d) => RemContractFunds(c, d)
    case SecureStep(ds, at) => (match SecureContract(c, ds, signer, at) case Success(next) => next case Failure(_) => c)
    case ActivateStep(at, vmid) => ActivateContract(c, signer, at, vmid)
    case CloseStep(vm) => (match CloseContract(c, vm, signer) case Success(next) => next case Failure(_) => c)
    case SpendStep(txhex, txid, at) => SpendContract(c, txhex, txid, signer, at)
    case SettleStep(tx, at) => SettleContract(c, signer, tx, at)
    case CancelStep(at) => CancelContract(c, signer, at)
  }

  /** What is owed for `n` inputs: the subtotal, the fee on the largest template and that on each input. */
  function Owed(t: Terms, n: nat): real {
    t.subtotal + (t.feerate * t.txBsize as real + t.vinTxfee * n as real)
  }

  /** A contract is secured exactly while it is not canceled, by confirmed deposits worth what is owed for them. */
  lemma SecuredIff(c: ContractData, ds: seq<Deposit>, signer: string, at: int)
    ensures SecureContract(c, ds, signer, at).Success? <==>
              !c.cancel.canceled && (forall d | d in ds :: d.confirmed) && Owed(c.terms, |ds|) <= TotalValue(ds)
  {
    if d :| d in ds && !d.confirmed {
      UnconfirmedRefused(c, ds, d, signer, at);
    } else {
      SecuredWhenPaid(c, ds, signer, at);
    }
  }

  lemma UnconfirmedRefused(c: ContractData, ds: seq<Deposit>, d: Deposit, signer: string, at: int)
    requires d in ds && !d.confirmed
    ensures SecureContract(c, ds, signer, at).Failure?
  {
  }

  lemma SecuredWhenPaid(c: ContractData, ds: seq<Deposit>, signer: string, at: int)
    requires forall d | d in ds :: d.confirmed
    ensures SecureContract(c, ds, signer, at).Success? <==>
              !c.cancel.canceled && Owed(c.terms, |ds|) <= TotalValue(ds)
  {
    assert SecuredFunds(c.terms, ds).txTotal == Owed(c.terms, |ds|);
  }

  /** It is closed exactly while it is active, when its machine is closed. */
  lemma ClosedIff(c: ContractData, vm: M.MachineData, signer: string)
    ensures CloseContract(c, vm, signer).Success? <==> c.engine.activated && vm.closed
  {
  }

  ghost predicate AllInOrder(c: ContractData, steps: seq<Step>, signer: string)
    decreases |steps|
  {
    steps == [] || (InOrder(c, steps[0]) && AllInOrder(Take(c, steps[0], signer), steps[1..], signer))
  }

  function TakeAll(c: ContractData, steps: seq<Step>, signer: string): ContractData
    decreases |steps|
  {
    if steps == [] then c else TakeAll(Take(c, steps[0], signer), steps[1..], signer)
  }

  /** Flags are set in order, and what is not set yet is in its initial state. */
  ghost predicate Ordered(c: ContractData) {
    && (!c.funding.secured ==> c.funding == INIT_FUNDING && c.engine == INIT_ENGINE)
    && (!c.engine.activated ==> c.engine == INIT_ENGINE && c.close == INIT_CLOSE)
    && (!c.close.closed ==> c.close == INIT_CLOSE && c.spend == INIT_SPEND)
    && (!c.spend.spent ==> c.spend == INIT_SPEND && c.settle == INIT_SETTLE)
    && (!c.settle.settled ==> c.settle == INIT_SETTLE)
    && (!c.cancel.canceled ==> c.cancel == INIT_CANCEL)
  }

  /** The cancellation's own signature is part of what its verification recomputes. */
  ghost predicate CancelSigned(c: ContractData) {
    c.cancel.canceled ==> c.cancel.canceledSig.Some? && c.cancel.canceledSig.value.id.content.cancel.canceledSig.None?
  }

  ghost predicate Proved(c: ContractData) {
    && Ordered(c)
    && CancelSigned(c)
    && VerifyContractSig(c, c.terms.agentPk, Published)
    && (!c.cancel.canceled ==>
          && (c.funding.secured ==> VerifyContractSig(c, c.terms.agentPk, Secured))
          && (c.engine.activated ==> VerifyContractSig(c, c.terms.agentPk, Active))
          && (c.close.closed ==> VerifyContractSig(c, c.terms.agentPk, Closed))
          && (c.spend.spent ==> VerifyContractSig(c, c.terms.agentPk, Spent))
          && (c.settle.settled ==> VerifyContractSig(c, c.terms.agentPk, Settled)))
  }

  lemma FundsKeep(c: ContractData, step: Step)
    requires Proved(c) && InOrder(c, step)
    requires step.AddFundsStep? || step.ConfirmStep? || step.RemoveStep?
    ensures Proved(Take(c, step, c.terms.agentPk))
  {
    var c' := Take(c, step, c.terms.agentPk);
    assert c' == c.(funds := c'.funds);
    assert GetPreimage(c', Published) == GetPreimage(c, Published);
  }

  lemma SecureKeeps(c: ContractData, step: Step)
    requires Proved(c) && InOrder(c, step) && step.SecureStep?
    ensures Proved(Take(c, step, c.terms.agentPk))
  {
    var c' := Take(c, step, c.terms.agentPk);
    assert GetPreimage(c', Published) == GetPreimage(c, Published);
  }

  lemma ActivateKeeps(c: ContractData, step: Step)
    requires Proved(c) && InOrder(c, step) && step.ActivateStep?
    ensures Proved(Take(c, step, c.terms.agentPk))
  {
    var c' := Take(c, step, c.terms.agentPk);
    assert GetPreimage(c', Published) == GetPreimage(c, Published);
    assert GetPreimage(c', Secured) == GetPreimage(c, Secured);
  }

  lemma CloseKeeps(c: ContractData, step: Step)
    requires Proved(c) && InOrder(c, step) && step.CloseStep?
    ensures Proved(Take(c, step, c.terms.agentPk))
  {
    var c' := Take(c, step, c.terms.agentPk);
    assert GetPreimage(c', Published) == GetPreimage(c, Published);
    assert GetPreimage(c', Secured) == GetPreimage(c, Secured);
    assert GetPreimage(c', Active) == GetPreimage(c, Active);
  }

  lemma SpendKeeps(c: ContractData, step: Step)
    requires Proved(c) && InOrder(c, step) && step.SpendStep?
    ensures Proved(Take(c, step, c.terms.agentPk))
  {
    var c' := Take(c, step, c.terms.agentPk);
    assert GetPreimage(c', Published) == GetPreimage(c, Published);
    assert GetPreimage(c', Secured) == GetPreimage(c, Secured);
    assert GetPreimage(c', Active) == GetPreimage(c, Active);
    assert GetPreimage(c', Closed) == GetPreimage(c, Closed);
  }

  lemma SettleKeeps(c: ContractData, step: Step)
    requires Proved(c) && InOrder(c, step) && step.SettleStep?
    ensures Proved(Take(c, step, c.terms.agentPk))
  {
    var c' := Take(c, step, c.terms.agentPk);
    SettledVerifies(c, step);
    assert Ordered(c') && CancelSigned(c');
    SettleUnseen(c, c', Published);
    SettleUnseen(c, c', Secured);
    SettleUnseen(c, c', Active);
    SettleUnseen(c, c', Closed);
    SettleUnseen(c, c', Spent);
  }

  lemma SettledVerifies(c: ContractData, step: Step)
    requires step.SettleStep?
    ensures var c' := Take(c, step, c.terms.agentPk);
            && c' == c.(settle := c'.settle, status := c'.status, updatedAt := c'.updatedAt)
            && c'.settle.settled && VerifyContractSig(c', c.terms.agentPk, Settled)
  {
  }

  /** No earlier projection shows what settling writes. */
  lemma SettleUnseen(c: ContractData, c': ContractData, status: ContractStatus)
    requires c' == c.(settle := c'.settle, status := c'.status, updatedAt := c'.updatedAt)
    requires !status.Canceled? && !status.Settled?
    ensures VerifyContractSig(c', c.terms.agentPk, status) <==> VerifyContractSig(c, c.terms.agentPk, status)
  {
    assert GetPreimage(c', status) == GetPreimage(c, status) && GetProof(c', status) == GetProof(c, status);
  }

  lemma CancelKeeps(c: ContractData, step: Step)
    requires Proved(c) && InOrder(c, step) && step.CancelStep?
    ensures Proved(Take(c, step, c.terms.agentPk))
  {
    var c' := Take(c, step, c.terms.agentPk);
    assert GetPreimage(c', Published) == GetPreimage(c, Published);
  }

  lemma {:induction false} LifeKeepsProofs(c: ContractData, steps: seq<Step>)
    requires Proved(c) && AllInOrder(c, steps, c.terms.agentPk)
    ensures Proved(TakeAll(c, steps, c.terms.agentPk))
    ensures TakeAll(c, steps, c.terms.agentPk).terms == c.terms
    decreases |steps|
  {
    if steps != [] {
      match steps[0] {
        case SecureStep(_, _) => SecureKeeps(c, steps[0]);
        case ActivateStep(_, _) => ActivateKeeps(c, steps[0]);
        case CloseStep(_) => CloseKeeps(c, steps[0]);
        case SpendStep(_, _, _) => SpendKeeps(c, steps[0]);
        case SettleStep(_, _) => SettleKeeps(c, steps[0]);
        case CancelStep(_) => CancelKeeps(c, steps[0]);
        case _ => FundsKeep(c, steps[0]);
      }
      LifeKeepsProofs(Take(c, steps[0], c.terms.agentPk), steps[1..]);
    }
  }

  /**
   Along every life of a contract taken in order, with its refused steps, all the current
   proofs verify exactly when it was never canceled; the publication always verifies.
   */
  lemma {:induction false} SignaturePermanence(
    config: CreateConfig, p: ProposalData, endorsements: seq<string>, signer: string, ids: Digests, enc: Encoder,
    steps: seq<Step>)
    requires p.paths != []
    requires AllInOrder(CreateContract(config, p, endorsements, signer, ids, enc), steps, signer)
    ensures var c := TakeAll(CreateContract(config, p, endorsements, signer, ids, enc), steps, signer);
            && VerifyContractSig(c, signer, Published)
            && (VerifyContractSigs(c, signer) <==> !c.cancel.canceled)
  {
    var c0 := CreateContract(config, p, endorsements, signer, ids, enc);
    LifeKeepsProofs(c0, steps);
  }

  /* ---- What a record remembers ---- */

  ghost predicate SecuredBy(c: ContractData, step: Step) {
    && step.SecureStep? && (forall d | d in step.deposits :: d.confirmed)
    && c.funding.effectiveAt == Some(c.terms.proposal.effective.GetOr(step.at))
    && c.funds.conf == TotalValue(step.deposits) && c.funds.txTotal <= c.funds.conf
  }

  ghost predicate ActivatedBy(c: ContractData, step: Step) {
    && step.ActivateStep?
    && c.engine.activeAt == Some(step.at) && c.engine.expiresAt == Some(step.at + c.terms.proposal.duration)
    && c.engine.machineVmid == Some(step.vmid)
    && (!c.close.closed ==> c.engine.machineHead == Some(M.Genesis(step.vmid)))
  }

  ghost predicate ClosedBy(c: ContractData, step: Step) {
    && step.CloseStep? && step.vmdata.closed
    && c.close.closedAt == step.vmdata.closedAt && c.close.machineVout == step.vmdata.output
    && c.engine.machineHead == Some(step.vmdata.head)
  }

  ghost predicate SpentBy(c: ContractData, step: Step) {
    && step.SpendStep?
    && c.spend.spentAt == Some(step.at) && c.spend.spentTxhex == Some(step.txhex)
       && c.spend.spentTxid == Some(step.txid)
  }

  /** A settlement is dated by its block, if it is given one. */
  ghost predicate SettledBy(c: ContractData, step: Step) {
    && step.SettleStep?
    && match step.txstatus
       case None =>
         c.settle.settledAt == Some(step.at) && c.settle.spentBlock == None && c.settle.spentHeight == None
       case Some(tx) =>
         && c.settle.settledAt == Some(tx.blockTime) && c.settle.spentBlock == Some(tx.blockHash)
         && c.settle.spentHeight == Some(tx.blockHeight)
  }

  ghost predicate CanceledBy(c: ContractData, step: Step) {
    step.CancelStep? && c.cancel.canceledAt == Some(step.at)
  }

  /** Each part of the record that is set was set by a step of the life, to what that step brought. */
  ghost predicate Remembers(c: ContractData, steps: seq<Step>) {
    && (c.funding.secured ==> exists s :: s in steps && SecuredBy(c, s))
    && (c.engine.activated ==> c.funding.secured && exists s :: s in steps && ActivatedBy(c, s))
    && (c.close.closed ==> c.engine.activated && exists s :: s in steps && ClosedBy(c, s))
    && (c.spend.spent ==> c.close.closed && exists s :: s in steps && SpentBy(c, s))
    && (c.settle.settled ==> c.spend.spent && exists s :: s in steps && SettledBy(c, s))
    && (c.cancel.canceled ==> exists s :: s in steps && CanceledBy(c, s))
  }

  lemma StepRemembered(c: ContractData, steps: seq<Step>, step: Step, signer: string)
    requires Remembers(c, steps) && InOrder(c, step)
    ensures Remembers(Take(c, step, signer), steps + [step])
    ensures Take(c, step, signer).terms == c.terms
  {
    var c' := Take(c, step, signer);
    assert (steps + [step])[|steps|] == step;
    assert forall s | s in steps :: s in steps + [step];
    match step {
      case SecureStep(_, _) => assert c' != c ==> SecuredBy(c', step);
      case ActivateStep(_, _) => assert ActivatedBy(c', step);
      case CloseStep(_) => assert c' != c ==> ClosedBy(c', step);
      case SpendStep(_, _, _) => assert SpentBy(c', step);
      case SettleStep(_, _) => assert SettledBy(c', step);
      case CancelStep(_) => assert CanceledBy(c', step);
      case _ =>
    }
  }

  lemma {:induction false} LifeRemembered(c: ContractData, done: seq<Step>, steps: seq<Step>, signer: string)
    requires Remembers(c, done) && AllInOrder(c, steps, signer)
    ensures Remembers(TakeAll(c, steps, signer), done + steps)
    decreases |steps|
  {
    if steps == [] {
      assert done + steps == done;
    } else {
      StepRemembered(c, done, steps[0], signer);
      LifeRemembered(Take(c, steps[0], signer), done + [steps[0]], steps[1..], signer);
      assert done + [steps[0]] + steps[1..] == done + steps;
    }
  }

  /**
   Along every life taken in order the record is the trace of its steps: it was secured, run,
   closed, spent and settled in that order, each at the date and with the values of a step that
   was taken, on funds that covered the total.
   */
  lemma {:induction false} LifeIsRemembered(
    config: CreateConfig, p: ProposalData, endorsements: seq<string>, signer: string, ids: Digests, enc: Encoder,
    steps: seq<Step>)
    requires p.paths != []
    requires AllInOrder(CreateContract(config, p, endorsements, signer, ids, enc), steps, signer)
    ensures Remembers(TakeAll(CreateContract(config, p, endorsements, signer, ids, enc), steps, signer), steps)
  {
    LifeRemembered(CreateContract(config, p, endorsements, signer, ids, enc), [], steps, signer);
    assert [] + steps == steps;
  }
}
