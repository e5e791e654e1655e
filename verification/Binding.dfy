/**
 What a current proof binds: the fields of a contract or a deposit that are signed for each
 status, exactly; any other proof, key or value in one of them is told by the verification.
 */
module Binding {
  import opened Wrappers
  import opened Contract
  import D = Deposits

  /* ---- Contracts ---- */

  /** The statuses a record claims to have passed. */
  predicate Claims(c: ContractData, status: ContractStatus) {
    match status
    case Published => true
    case Canceled => c.cancel.canceled
    case Secured => c.funding.secured
    case Active => c.engine.activated
    case Closed => c.close.closed
    case Spent => c.spend.spent
    case Settled => c.settle.settled
  }

  /** The fields that the publication leaves open, and all later proofs bind. */
  predicate SameOpening(c: ContractData, c': ContractData) {
    c'.createdSig == c.createdSig && c'.cancel == c.cancel && c'.funds == c.funds
  }

  /** The fields signed for a status: all that led up to it, its own, and not its own proof. */
  predicate SameSigned(c: ContractData, c': ContractData, status: ContractStatus) {
    && c'.terms == c.terms
    && match status
       case Published => true
       case Canceled =>
         && SameOpening(c, c') && c'.status == c.status && c'.funding == c.funding && c'.engine == c.engine
         && c'.close == c.close && c'.spend == c.spend && c'.settle == c.settle
       case Secured =>
         && SameOpening(c, c') && c'.funding.secured == c.funding.secured
         && c'.funding.effectiveAt == c.funding.effectiveAt
       case Active =>
         && SameOpening(c, c') && c'.funding == c.funding
         && c'.engine.activated == c.engine.activated && c'.engine.activeAt == c.engine.activeAt
         && c'.engine.machineVmid == c.engine.machineVmid && c'.engine.expiresAt == c.engine.expiresAt
       case Closed =>
         && SameOpening(c, c') && c'.funding == c.funding && c'.engine == c.engine
         && c'.close.closed == c.close.closed && c'.close.closedAt == c.close.closedAt
         && c'.close.machineVout == c.close.machineVout
       case Spent =>
         && SameOpening(c, c') && c'.funding == c.funding && c'.engine == c.engine && c'.close == c.close
         && c'.spend.spent == c.spend.spent && c'.spend.spentAt == c.spend.spentAt
         && c'.spend.spentTxhex == c.spend.spentTxhex && c'.spend.spentTxid == c.spend.spentTxid
       case Settled =>
         && SameOpening(c, c') && c'.funding == c.funding && c'.engine == c.engine && c'.close == c.close
         && c'.spend == c.spend && c'.settle.settled == c.settle.settled && c'.settle.settledAt == c.settle.settledAt
         && c'.settle.spentBlock == c.settle.spentBlock && c'.settle.spentHeight == c.settle.spentHeight
  }

  /**
   A record with the proof of another, which verifies there, verifies exactly when it has the
   same signed fields: nothing signed can be altered, and nothing else is signed.
   */
  lemma ProofBinds(c: ContractData, c': ContractData, status: ContractStatus)
    requires VerifyContractSig(c, c.terms.agentPk, status) && GetProof(c', status) == GetProof(c, status)
    ensures VerifyContractSig(c', c'.terms.agentPk, status) <==> SameSigned(c, c', status)
  {
    var note, note' := GetPreimage(c, status), GetPreimage(c', status);
    assert VerifyContractSig(c', c'.terms.agentPk, status) <==> note' == note && c'.terms.agentPk == c.terms.agentPk;
    if note'.Some? {
      assert note'.value.content == GetContractState(c', status).0
          && note.value.content == GetContractState(c, status).0;
    }
  }

  function WithProof(c: ContractData, status: ContractStatus, proof: Proof): ContractData {
    match status
    case Published => c.(createdSig := Some(proof))
    case Canceled => c.(cancel := c.cancel.(canceledSig := Some(proof)))
    case Secured => c.(funding := c.funding.(securedSig := Some(proof)))
    case Active => c.(engine := c.engine.(activeSig := Some(proof)))
    case Closed => c.(close := c.close.(closedSig := Some(proof)))
    case Spent => c.(spend := c.spend.(spentSig := Some(proof)))
    case Settled => c.(settle := c.settle.(settledSig := Some(proof)))
  }

  /** No other proof will do for a status: not another note, and not the same note signed with another key. */
  lemma {:induction false} OneProof(c: ContractData, status: ContractStatus, proof: Proof)
    requires VerifyContractSig(c, c.terms.agentPk, status) && !status.Canceled?
    ensures VerifyContractSig(WithProof(c, status, proof), c.terms.agentPk, status)
        <==> GetProof(c, status) == Some(proof)
  {
    assert GetPreimage(WithProof(c, status, proof), status) == GetPreimage(c, status);
  }

  /** A record that claims a status with the proof of another. */
  predicate Carries(c: ContractData, c': ContractData, status: ContractStatus) {
    Claims(c', status) && GetProof(c', status) == GetProof(c, status)
  }

  /**
   So in a record all of whose proofs verify, one with another key in place of a proof's own,
   or any signed field of a claimed status altered, is rejected.
   */
  lemma {:induction false} TamperingShows(c: ContractData, status: ContractStatus, key: string, c': ContractData)
    requires VerifyContractSigs(c, c.terms.agentPk) && Claims(c, status) && !status.Canceled?
    ensures key != c.terms.agentPk ==>
      var id := GetProof(c, status).value.id;
      !VerifyContractSigs(WithProof(c, status, Proof(id, Signature(key, id))), c.terms.agentPk)
    ensures Carries(c, c', status) && VerifyContractSigs(c', c'.terms.agentPk) ==> SameSigned(c, c', status)
    ensures key != c.terms.agentPk ==> !VerifyContractSigs(c, key)
  {
    var id := GetProof(c, status).value.id;
    OneProof(c, status, Proof(id, Signature(key, id)));
    if Carries(c, c', status) {
      ProofBinds(c, c', status);
    }
  }

  /* ---- Deposits ---- */

  predicate DepositClaims(d: D.DepositData, status: D.DepositStatus) {
    match status
    case Registered => true
    case OpenDeposit => false
    case LockedDeposit => d.lock.locked
    case ClosedDeposit => d.close.closed
    case SpentDeposit => d.spend.spent
    case SettledDeposit => d.settle.settled
  }

  /** The fields signed for a status. A lock does not bind the confirmation, and a closing binds the spend fields. */
  predicate SameDepositSigned(d: D.DepositData, d': D.DepositData, status: D.DepositStatus) {
    && d'.terms == d.terms
    && match status
       case Registered => true
       case OpenDeposit => true
       case LockedDeposit =>
         && d'.createdSig == d.createdSig && d'.close == d.close && d'.lock.locked == d.lock.locked
         && d'.lock.lockedAt == d.lock.lockedAt && d'.lock.covenant == d.lock.covenant
       case ClosedDeposit =>
         && d'.createdSig == d.createdSig && d'.conf == d.conf && d'.lock == d.lock && d'.spend == d.spend
         && d'.close.closed == d.close.closed && d'.close.closedAt == d.close.closedAt
         && d'.close.returnTxhex == d.close.returnTxhex && d'.close.returnTxid == d.close.returnTxid
       case SpentDeposit =>
         && d'.createdSig == d.createdSig && d'.conf == d.conf && d'.lock == d.lock && d'.close == d.close
         && d'.spend.spent == d.spend.spent && d'.spend.spentAt == d.spend.spentAt
         && d'.spend.spentTxhex == d.spend.spentTxhex && d'.spend.spentTxid == d.spend.spentTxid
       case SettledDeposit =>
         && d'.createdSig == d.createdSig && d'.conf == d.conf && d'.lock == d.lock && d'.close == d.close
         && d'.spend == d.spend && d'.settle.settled == d.settle.settled && d'.settle.settledAt == d.settle.settledAt
         && d'.settle.spentBlock == d.settle.spentBlock && d'.settle.spentHeight == d.settle.spentHeight
  }

  lemma DepositProofBinds(d: D.DepositData, d': D.DepositData, status: D.DepositStatus)
    requires D.VerifyDepositSig(d, d.terms.agentPk, status)
        && D.GetDepositProof(d', status) == D.GetDepositProof(d, status)
    ensures D.VerifyDepositSig(d', d'.terms.agentPk, status) <==> SameDepositSigned(d, d', status)
  {
    var note, note' := D.GetDepositPreimage(d, status), D.GetDepositPreimage(d', status);
    assert D.VerifyDepositSig(d', d'.terms.agentPk, status) <==> note' == note && d'.terms.agentPk == d.terms.agentPk;
  }

  function WithDepositProof(d: D.DepositData, status: D.DepositStatus, proof: D.DProof): D.DepositData {
    match status
    case Registered => d.(createdSig := Some(proof))
    case OpenDeposit => d
    case LockedDeposit => d.(lock := d.lock.(lockedSig := Some(proof)))
    case ClosedDeposit => d.(close := d.close.(closedSig := Some(proof)))
    case SpentDeposit => d.(spend := d.spend.(spentSig := Some(proof)))
    case SettledDeposit => d.(settle := d.settle.(settledSig := Some(proof)))
  }

  lemma {:induction false} OneDepositProof(d: D.DepositData, status: D.DepositStatus, proof: D.DProof)
    requires D.VerifyDepositSig(d, d.terms.agentPk, status)
    ensures D.VerifyDepositSig(WithDepositProof(d, status, proof), d.terms.agentPk, status)
       <==> D.GetDepositProof(d, status) == Some(proof)
  {
    assert D.GetDepositPreimage(WithDepositProof(d, status, proof), status) == D.GetDepositPreimage(d, status);
  }

  /** The same for a deposit all of whose proofs verify. */
  lemma {:induction false} DepositTamperingShows(
    d: D.DepositData, status: D.DepositStatus, key: string, d': D.DepositData)
    requires D.AllProofsVerify(d, d.terms.agentPk) && DepositClaims(d, status)
    ensures key != d.terms.agentPk ==>
      var id := D.GetDepositProof(d, status).value.id;
      !D.AllProofsVerify(WithDepositProof(d, status, D.DProof(id, key, id)), d.terms.agentPk)
    ensures D.AllProofsVerify(d', d'.terms.agentPk) && DepositClaims(d', status)
            && D.GetDepositProof(d', status) == D.GetDepositProof(d, status)
            ==> SameDepositSigned(d, d', status)
  {
    var id := D.GetDepositProof(d, status).value.id;
    OneDepositProof(d, status, D.DProof(id, key, id));
    if DepositClaims(d', status) && D.GetDepositProof(d', status) == D.GetDepositProof(d, status) {
      DepositProofBinds(d, d', status);
    }
  }
}
