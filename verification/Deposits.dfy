/**
 The deposit record, its transitions, and the projections of it that are signed.
 */
module Deposits {
  import opened Wrappers
  import opened Contract

  datatype DepositStatus = Registered | OpenDeposit | LockedDeposit | SpentDeposit | SettledDeposit | ClosedDeposit

  datatype DNote = DNote(dpid: string, pubkey: string, createdAt: int, content: DepositData)
  datatype DProof = DProof(id: DNote, signer: string, signedId: DNote)

  /** What registration fixes; its other request fields are carried in `request`. */
  datatype DTerms = DTerms(agentPk: string, dpid: string, createdAt: int, locktime: int, request: string)

  datatype ConfInfo = ConfInfo(
    confirmed: bool, confirmedAt: Option<int>, confBlock: Option<string>, confHeight: Option<int>,
    expiresAt: Option<int>)
  datatype LockInfo = LockInfo(locked: bool, lockedAt: Option<int>, lockedSig: Option<DProof>, covenant: Option<string>)
  datatype DCloseInfo = DCloseInfo(
    closed: bool, closedAt: Option<int>, closedSig: Option<DProof>, returnTxhex: Option<string>,
    returnTxid: Option<string>)
  datatype DSpendInfo = DSpendInfo(
    spent: bool, spentAt: Option<int>, spentSig: Option<DProof>, spentTxhex: Option<string>,
    spentTxid: Option<string>)
  datatype DSettleInfo = DSettleInfo(
    settled: bool, settledAt: Option<int>, settledSig: Option<DProof>, spentBlock: Option<string>,
    spentHeight: Option<int>)

  datatype DepositData = DepositData(
    terms: DTerms, createdSig: Option<DProof>, status: DepositStatus, updatedAt: int,
    conf: ConfInfo, lock: LockInfo, close: DCloseInfo, spend: DSpendInfo, settle: DSettleInfo)

  const INIT_CONF := ConfInfo(false, None, None, None, None)
  const INIT_LOCK := LockInfo(false, None, None, None)
  const INIT_DCLOSE := DCloseInfo(false, None, None, None, None)
  const INIT_DSPEND := DSpendInfo(false, None, None, None, None)
  const INIT_DSETTLE := DSettleInfo(false, None, None, None, None)

  /* ---- Projections ---- */

  function RegisterState(d: DepositData): DepositData {
    d.(conf := INIT_CONF, close := INIT_DCLOSE, lock := INIT_LOCK, spend := INIT_DSPEND, settle := INIT_DSETTLE,
       createdSig := None, status := Registered)
  }

  function SpendDState(d: DepositData): DepositData {
    d.(settle := INIT_DSETTLE, spend := d.spend.(spentSig := None), status := SpentDeposit)
  }

  /** The lock projection resets the confirmation, and leaves the closing fields in place. */
  function LockedState(d: DepositData): DepositData {
    SpendDState(d).(spend := INIT_DSPEND, conf := INIT_CONF, lock := d.lock.(lockedSig := None),
      status := LockedDeposit)
  }

  /** The closing projection does not reset the spend fields. */
  function ClosedState(d: DepositData): DepositData {
    d.(settle := INIT_DSETTLE, close := d.close.(closedSig := None), status := ClosedDeposit)
  }

  function SettleDState(d: DepositData): DepositData {
    d.(settle := d.settle.(settledSig := None), status := SettledDeposit)
  }

  /** None where the source throws: there is no projection for the status, or its stamp is null. */
  function GetDepositPreimage(d: DepositData, status: DepositStatus): Option<DNote> {
    var rest := d.(updatedAt := 0);
    match status
    case Registered => Some(DNote(d.terms.dpid, d.terms.agentPk, d.terms.createdAt, RegisterState(rest)))
    case LockedDeposit => Stamped(d, d.lock.lockedAt, LockedState(rest))
    case ClosedDeposit => Stamped(d, d.close.closedAt, ClosedState(rest))
    case SpentDeposit => Stamped(d, d.spend.spentAt, SpendDState(rest))
    case SettledDeposit => Stamped(d, d.settle.settledAt, SettleDState(rest))
    case OpenDeposit => None
  }

  function Stamped(d: DepositData, stamp: Option<int>, content: DepositData): Option<DNote> {
    match stamp
    case None => None
    case Some(at) => Some(DNote(d.terms.dpid, d.terms.agentPk, at, content))
  }

  function GetDepositProof(d: DepositData, status: DepositStatus): Option<DProof> {
    match status
    case Registered => d.createdSig
    case LockedDeposit => d.lock.lockedSig
    case ClosedDeposit => d.close.closedSig
    case SpentDeposit => d.spend.spentSig
    case SettledDeposit => d.settle.settledSig
    case OpenDeposit => None
  }

  function NotarizeDeposit(d: DepositData, signer: string, status: DepositStatus): Option<DProof> {
    match GetDepositPreimage(d, status)
    case None => None
    case Some(note) => Some(DProof(note, signer, note))
  }

  predicate VerifyDepositSig(d: DepositData, pubkey: string, status: DepositStatus) {
    var proof, note := GetDepositProof(d, status), GetDepositPreimage(d, status);
    && proof.Some? && note.Some?
    && pubkey == d.terms.agentPk
    && proof.value.id == note.value
    && proof.value.signer == d.terms.agentPk && proof.value.signedId == proof.value.id
  }

  /** Every proof the record holds is current. */
  predicate AllProofsVerify(d: DepositData, pubkey: string) {
    && VerifyDepositSig(d, pubkey, Registered)
    && (d.lock.locked ==> VerifyDepositSig(d, pubkey, LockedDeposit))
    && (d.close.closed ==> VerifyDepositSig(d, pubkey, ClosedDeposit))
    && (d.spend.spent ==> VerifyDepositSig(d, pubkey, SpentDeposit))
    && (d.settle.settled ==> VerifyDepositSig(d, pubkey, SettledDeposit))
  }

  /* ---- Transitions ---- */

  datatype DepositError =
    | AlreadyConfirmed | NotConfirmed | AlreadyLocked | NotLocked | AlreadyClosed | AlreadySpent | NotSettled

  function CreateDeposit(terms: DTerms): DepositData {
    var d := DepositData(terms, None, Registered, terms.createdAt, INIT_CONF, INIT_LOCK, INIT_DCLOSE, INIT_DSPEND,
        INIT_DSETTLE);
    d.(createdSig := NotarizeDeposit(d, terms.agentPk, Registered))
  }

  function ConfirmDeposit(d: DepositData, tx: TxStatus): Result<DepositData, DepositError> {
    if d.conf.confirmed then Failure(AlreadyConfirmed)
    else
      var info := ConfInfo(true, Some(tx.blockTime), Some(tx.blockHash), Some(tx.blockHeight),
          Some(tx.blockTime + d.terms.locktime));
      var status := if d.lock.locked then LockedDeposit else OpenDeposit;
      Success(d.(conf := info, status := status, updatedAt := tx.blockTime))
  }

  function CloseDeposit(
    d: DepositData, signer: string, txhex: string, txid: string, closedAt: int): Result<DepositData, DepositError> {
    if !d.conf.confirmed then Failure(DepositError.NotConfirmed)
    else if d.lock.locked then Failure(AlreadyLocked)
    else if d.close.closed then Failure(AlreadyClosed)
    else if d.spend.spent then Failure(AlreadySpent)
    else
      var updated := d.(
        close := DCloseInfo(true, Some(closedAt), d.close.closedSig, Some(txhex), Some(txid)),
        status := ClosedDeposit, updatedAt := closedAt);
      Success(updated.(close := updated.close.(closedSig := NotarizeDeposit(updated, signer, ClosedDeposit))))
  }

  function LockDeposit(
    d: DepositData, covenant: string, signer: string, lockedAt: int): Result<DepositData, DepositError> {
    if d.lock.locked then Failure(AlreadyLocked)
    else if d.close.closed then Failure(AlreadyClosed)
    else if d.spend.spent then Failure(AlreadySpent)
    else
      var updated := d.(
        lock := LockInfo(true, Some(lockedAt), d.lock.lockedSig, Some(covenant)),
        status := LockedDeposit, updatedAt := lockedAt);
      Success(updated.(lock := updated.lock.(lockedSig := NotarizeDeposit(updated, signer, LockedDeposit))))
  }

  function ReleaseDeposit(d: DepositData, updatedAt: int): Result<DepositData, DepositError> {
    if !d.lock.locked then Failure(NotLocked)
    else if d.close.closed then Failure(AlreadyClosed)
    else if d.spend.spent then Failure(AlreadySpent)
    else
      var status := if d.conf.confirmed then OpenDeposit else Registered;
      Success(d.(lock := INIT_LOCK, status := status, updatedAt := updatedAt))
  }

  /** A closed deposit is not refused. */
  function SpendDeposit(
    d: DepositData, txhex: string, txid: string, signer: string, spentAt: int): Result<DepositData, DepositError> {
    if !d.conf.confirmed then Failure(DepositError.NotConfirmed)
    else if d.spend.spent then Failure(AlreadySpent)
    else
      var updated := d.(
        spend := DSpendInfo(true, Some(spentAt), d.spend.spentSig, Some(txhex), Some(txid)),
        status := SpentDeposit, updatedAt := spentAt);
      Success(updated.(spend := updated.spend.(spentSig := NotarizeDeposit(updated, signer, SpentDeposit))))
  }

  function SettleDeposit(d: DepositData, signer: string, tx: TxStatus): Result<DepositData, DepositError> {
    if !d.conf.confirmed then Failure(DepositError.NotConfirmed)
    else if !d.spend.spent && !d.close.closed then Failure(NotSettled)
    else
      var updated := d.(
        settle := DSettleInfo(true, Some(tx.blockTime), d.settle.settledSig, Some(tx.blockHash), Some(tx.blockHeight)),
        status := SettledDeposit, updatedAt := tx.blockTime);
      Success(updated.(settle := updated.settle.(settledSig := NotarizeDeposit(updated, signer, SettledDeposit))))
  }

  /* ---- Runs ---- */

  datatype DepositOp =
    | ConfirmOp(tx: TxStatus)
    | CloseOp(txhex: string, txid: string, at: int)
    | LockOp(covenant: string, at: int)
    | ReleaseOp(at: int)
    | SpendOp(txhex: string, txid: string, at: int)
    | SettleOp(tx: TxStatus)

  function Attempt(d: DepositData, op: DepositOp): Result<DepositData, DepositError> {
    var signer := d.terms.agentPk;
    match op
    case ConfirmOp(tx) => ConfirmDeposit(d, tx)
    case CloseOp(txhex, txid, at) => CloseDeposit(d, signer, txhex, txid, at)
    case LockOp(covenant, at) => LockDeposit(d, covenant, signer, at)
    case ReleaseOp(at) => ReleaseDeposit(d, at)
    case SpendOp(txhex, txid, at) => SpendDeposit(d, txhex, txid, signer, at)
    case SettleOp(tx) => SettleDeposit(d, signer, tx)
  }

  /** A run of attempted operations; a refused one changes nothing. */
  function RunDeposit(d: DepositData, ops: seq<DepositOp>): DepositData
    decreases |ops|
  {
    if ops == [] then d
    else
      match Attempt(d, ops[0])
      case Success(next) => RunDeposit(next, ops[1..])
      case Failure(_) => RunDeposit(d, ops[1..])
  }

  /**
   What the flags of a deposit say of each other, and its status of them. A deposit expires
   its locktime after the block that confirmed it.
   */
  ghost predicate Consistent(d: DepositData) {
    && (if d.conf.confirmed
        then d.conf.confirmedAt.Some? && d.conf.expiresAt == Some(d.conf.confirmedAt.value + d.terms.locktime)
        else d.conf == INIT_CONF)
    && (d.close.closed || d.spend.spent || d.settle.settled ==> d.conf.confirmed)
    && (d.settle.settled ==> d.close.closed || d.spend.spent)
    && !(d.lock.locked && d.close.closed)
    && (d.lock.locked ==> d.lock.lockedAt.Some? && d.lock.covenant.Some?)
    && (d.close.closed ==> d.close.closedAt.Some? && d.close.returnTxid.Some?)
    && (d.spend.spent ==> d.spend.spentAt.Some? && d.spend.spentTxid.Some?)
    && (d.settle.settled ==> d.settle.settledAt.Some? && d.settle.spentBlock.Some?)
    && (match d.status
        case Registered => !d.conf.confirmed && !d.lock.locked
        case OpenDeposit => d.conf.confirmed && !d.lock.locked && !d.close.closed && !d.spend.spent
        case LockedDeposit => d.lock.locked && !d.spend.spent
        case ClosedDeposit => d.close.closed
        case SpentDeposit => d.spend.spent
        case SettledDeposit => d.settle.settled)
  }

  /** The operations that a deposit's flags allow. */
  predicate Allows(d: DepositData, op: DepositOp) {
    match op
    case ConfirmOp(_) => !d.conf.confirmed
    case CloseOp(_, _, _) => d.conf.confirmed && !d.lock.locked && !d.close.closed && !d.spend.spent
    case LockOp(_, _) => !d.lock.locked && !d.close.closed && !d.spend.spent
    case ReleaseOp(_) => d.lock.locked && !d.close.closed && !d.spend.spent
    case SpendOp(_, _, _) => d.conf.confirmed && !d.spend.spent
    case SettleOp(_) => d.conf.confirmed && (d.spend.spent || d.close.closed)
  }

  lemma AllowedIff(d: DepositData, op: DepositOp)
    ensures Attempt(d, op).Success? <==> Allows(d, op)
  {
  }

  /**
   What is still allowed, told from the status: an open deposit can be closed, locked and
   spent, a locked one released and not closed; a closed or spent one is settled, and never
   locked or released again.
   */
  predicate StatusAllows(d: DepositData, op: DepositOp) {
    match op
    case ConfirmOp(_) => d.status.Registered? ==> Allows(d, op)
    case CloseOp(_, _, _) =>
      (d.status.OpenDeposit? ==> Allows(d, op)) && (d.status.LockedDeposit? ==> !Allows(d, op))
    case LockOp(_, _) =>
      (d.status.OpenDeposit? ==> Allows(d, op)) && (d.close.closed || d.spend.spent ==> !Allows(d, op))
    case ReleaseOp(_) =>
      (d.status.LockedDeposit? ==> Allows(d, op)) && (d.close.closed || d.spend.spent ==> !Allows(d, op))
    case SpendOp(_, _, _) => d.status.OpenDeposit? ==> Allows(d, op)
    case SettleOp(_) => d.close.closed || d.spend.spent <==> Allows(d, op)
  }

  /** After any operations at all the deposit's status and flags agree, and so say what it still allows. */
  lemma {:induction false} DepositLife(terms: DTerms, ops: seq<DepositOp>, op: DepositOp)
    ensures var d := RunDeposit(CreateDeposit(terms), ops);
            Consistent(d) && d.terms == terms && StatusAllows(d, op) && (Attempt(d, op).Success? <==> Allows(d, op))
  {
    RunKeeps(CreateDeposit(terms), ops);
    AllowedIff(RunDeposit(CreateDeposit(terms), ops), op);
  }

  ghost predicate DepositInv(d: DepositData) {
    var pk := d.terms.agentPk;
    && Consistent(d)
    && VerifyDepositSig(d, pk, Registered)
    && (d.lock.locked ==> !d.close.closed && VerifyDepositSig(d, pk, LockedDeposit))
    && (!d.lock.locked ==> d.lock == INIT_LOCK)
    && (d.close.closed ==> d.conf.confirmed && d.close.closedSig.Some?)
    && (!d.close.closed ==> d.close == INIT_DCLOSE)
    && (d.spend.spent ==> d.conf.confirmed && VerifyDepositSig(d, pk, SpentDeposit))
    && (!d.spend.spent ==> d.spend == INIT_DSPEND)
    && (d.settle.settled ==> d.conf.confirmed && (d.spend.spent || d.close.closed))
    && (d.close.closed ==> d.close.closedSig.value.id.content.spend == INIT_DSPEND)
    && (!(d.close.closed && d.spend.spent) ==>
          && (d.close.closed ==> VerifyDepositSig(d, pk, ClosedDeposit))
          && (d.settle.settled ==> VerifyDepositSig(d, pk, SettledDeposit)))
  }

  lemma {:induction false} AttemptKeeps(d: DepositData, op: DepositOp)
    requires DepositInv(d) && Attempt(d, op).Success?
    ensures DepositInv(Attempt(d, op).value) && Attempt(d, op).value.terms == d.terms
  {
    var d' := Attempt(d, op).value;
    assert GetDepositPreimage(d', Registered) == GetDepositPreimage(d, Registered);
    match op {
      case ConfirmOp(_) => assert GetDepositPreimage(d', LockedDeposit) == GetDepositPreimage(d, LockedDeposit);
      case CloseOp(_, _, _) =>
      case LockOp(_, _) =>
      case ReleaseOp(_) =>
      case SpendOp(_, _, _) => assert GetDepositPreimage(d', LockedDeposit) == GetDepositPreimage(d, LockedDeposit);
      case SettleOp(_) =>
        assert GetDepositPreimage(d', LockedDeposit) == GetDepositPreimage(d, LockedDeposit);
        assert GetDepositPreimage(d', ClosedDeposit) == GetDepositPreimage(d, ClosedDeposit);
        assert GetDepositPreimage(d', SpentDeposit) == GetDepositPreimage(d, SpentDeposit);
    }
  }

  lemma {:induction false} RunKeeps(d: DepositData, ops: seq<DepositOp>)
    requires DepositInv(d)
    ensures DepositInv(RunDeposit(d, ops)) && RunDeposit(d, ops).terms == d.terms
    decreases |ops|
  {
    if ops != [] {
      if Attempt(d, ops[0]).Success? {
        AttemptKeeps(d, ops[0]);
        RunKeeps(Attempt(d, ops[0]).value, ops[1..]);
      } else {
        RunKeeps(d, ops[1..]);
      }
    }
  }

  /**
   After any operations at all, in any order, every proof a deposit holds still verifies
   exactly when it was not both closed and spent.
   */
  lemma {:induction false} DepositProofsIff(terms: DTerms, ops: seq<DepositOp>)
    ensures var d := RunDeposit(CreateDeposit(terms), ops);
            AllProofsVerify(d, terms.agentPk) <==> !(d.close.closed && d.spend.spent)
  {
    var d0 := CreateDeposit(terms);
    RunKeeps(d0, ops);
  }

  /** And a deposit can be both: nothing refuses the spending of a closed one. */
  lemma ClosedThenSpent(terms: DTerms, tx: TxStatus, txhex: string, txid: string, at: int)
    ensures var ops := [ConfirmOp(tx), CloseOp(txhex, txid, at), SpendOp(txhex, txid, at)];
            var d := RunDeposit(CreateDeposit(terms), ops);
            d.close.closed && d.spend.spent && !AllProofsVerify(d, terms.agentPk)
  {
    var ops := [ConfirmOp(tx), CloseOp(txhex, txid, at), SpendOp(txhex, txid, at)];
    var d0 := CreateDeposit(terms);
    assert ops[1..] == [CloseOp(txhex, txid, at), SpendOp(txhex, txid, at)];
    assert ops[1..][1..] == [SpendOp(txhex, txid, at)] && ops[1..][1..][1..] == [];
    var d1 := ConfirmDeposit(d0, tx).value;
    var d2 := CloseDeposit(d1, terms.agentPk, txhex, txid, at).value;
    var d3 := SpendDeposit(d2, txhex, txid, terms.agentPk, at).value;
    assert RunDeposit(d0, ops) == RunDeposit(d1, ops[1..]) == RunDeposit(d2, ops[1..][1..]) == RunDeposit(d3, []);
    DepositProofsIff(terms, ops);
  }
}
