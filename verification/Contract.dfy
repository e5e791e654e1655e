/**
 The contract record, the steps that build it, and the projections of it that are signed.
 Digests and signatures are symbolic: a proof holds the note it signs.
 */
module Contract {
  import opened Wrappers
  import opened Proposal
  import M = Machine

  /** Txid (32) + vout (4) + script (1) + sequence (4), and the signature at witness weight. */
  const SPEND_TXIN_SIZE := 41 + 18

  datatype ContractStatus =
    | Published | Canceled | Secured | Active | Closed | Spent | Settled

  /** A template's outputs stand for the transaction hex that encodes them. */
  datatype SpendTemplate = SpendTemplate(path: string, vouts: seq<TxOutput>)

  /**
   The digests that identify things: a proposal, a contract by its templates, proposal and
   date, and a transaction by the deposits it spends and its outputs, without its witnesses.
   */
  datatype Digests = Digests(
    proposal: ProposalData -> string, contract: (seq<SpendTemplate>, string, int) -> string,
    tx: (seq<string>, seq<TxOutput>) -> string)

  datatype Note = Note(cid: string, pubkey: string, createdAt: int, content: ContractData)
  datatype Signature = Signature(pubkey: string, id: Note)
  datatype Proof = Proof(id: Note, sig: Signature)

  /* The record, in the groups of fields that the schema merges into it. */

  /** What no step after creation changes. */
  datatype Terms = Terms(
    agentPk: string, cid: string, createdAt: int, deadlineAt: int, endorsements: seq<string>, feerate: real,
    fees: seq<PaymentEntry>, outputs: seq<SpendTemplate>, moderator: Option<string>, propId: string,
    subtotal: real, proposal: ProposalData, txBsize: int, vinTxfee: real)

  datatype Funds = Funds(pend: real, conf: real, txFees: real, txTotal: real, txVsize: int, vinCount: int)

  datatype CancelInfo = CancelInfo(canceled: bool, canceledAt: Option<int>, canceledSig: Option<Proof>)
  datatype FundingInfo = FundingInfo(secured: bool, securedSig: Option<Proof>, effectiveAt: Option<int>)
  datatype EngineInfo = EngineInfo(
    activated: bool, activeAt: Option<int>, activeSig: Option<Proof>,
    machineHead: Option<M.Head>, machineVmid: Option<string>, expiresAt: Option<int>)
  datatype CloseInfo = CloseInfo(
    closed: bool, closedAt: Option<int>, closedSig: Option<Proof>, machineVout: Option<string>)
  datatype SpendInfo = SpendInfo(
    spent: bool, spentAt: Option<int>, spentSig: Option<Proof>, spentTxhex: Option<string>, spentTxid: Option<string>)
  datatype SettleInfo = SettleInfo(
    settled: bool, settledAt: Option<int>, settledSig: Option<Proof>, spentBlock: Option<string>,
    spentHeight: Option<int>)

  datatype ContractData = ContractData(
    terms: Terms, createdSig: Option<Proof>, status: ContractStatus, updatedAt: int, funds: Funds,
    cancel: CancelInfo, funding: FundingInfo, engine: EngineInfo, close: CloseInfo, spend: SpendInfo,
    settle: SettleInfo)

  /* ---- Reset records ---- */

  const INIT_FUNDS := Funds(0.0, 0.0, 0.0, 0.0, 0, 0)
  const INIT_CANCEL := CancelInfo(false, None, None)
  const INIT_FUNDING := FundingInfo(false, None, None)
  const INIT_ENGINE := EngineInfo(false, None, None, None, None, None)
  const INIT_CLOSE := CloseInfo(false, None, None, None)
  const INIT_SPEND := SpendInfo(false, None, None, None, None)
  const INIT_SETTLE := SettleInfo(false, None, None, None, None)

  function SettleState(c: ContractData): ContractData {
    c.(settle := c.settle.(settledSig := None), status := Settled)
  }

  function SpendState(c: ContractData): ContractData {
    c.(settle := INIT_SETTLE, spend := c.spend.(spentSig := None), status := Spent)
  }

  function CloseState(c: ContractData): ContractData {
    SpendState(c).(spend := INIT_SPEND, close := c.close.(closedSig := None), status := Closed)
  }

  function ActiveState(c: ContractData): ContractData {
    CloseState(c).(close := INIT_CLOSE, engine := c.engine.(activeSig := None, machineHead := None), status := Active)
  }

  function FundingState(c: ContractData): ContractData {
    ActiveState(c).(engine := INIT_ENGINE, funding := c.funding.(securedSig := None), status := Secured)
  }

  function PublishState(c: ContractData): ContractData {
    ActiveState(c).(
      engine := INIT_ENGINE, cancel := INIT_CANCEL, funds := INIT_FUNDS, funding := INIT_FUNDING,
      createdSig := None, status := Published)
  }

  /** The projection of a record that is signed for a status, and its stamp. `updated_at` is never part of it. */
  function GetContractState(c: ContractData, status: ContractStatus): (ContractData, Option<int>) {
    var rest := c.(updatedAt := 0);
    match status
    case Published => (PublishState(rest), Some(c.terms.createdAt))
    case Canceled => (rest, c.cancel.canceledAt)
    case Secured => (FundingState(rest), c.funding.effectiveAt)
    case Active => (ActiveState(rest), c.engine.activeAt)
    case Closed => (CloseState(rest), c.close.closedAt)
    case Spent => (SpendState(rest), c.spend.spentAt)
    case Settled => (SettleState(rest), c.settle.settledAt)
  }

  function GetPreimage(c: ContractData, status: ContractStatus): Option<Note> {
    var (content, stamp) := GetContractState(c, status);
    if stamp.None? then None else Some(Note(c.terms.cid, c.terms.agentPk, stamp.value, content))
  }

  function GetProof(c: ContractData, status: ContractStatus): Option<Proof> {
    match status
    case Published => c.createdSig
    case Canceled => c.cancel.canceledSig
    case Secured => c.funding.securedSig
    case Active => c.engine.activeSig
    case Closed => c.close.closedSig
    case Spent => c.spend.spentSig
    case Settled => c.settle.settledSig
  }

  /** None where the source throws for want of a stamp. */
  function Notarize(c: ContractData, signer: string, status: ContractStatus): Option<Proof> {
    match GetPreimage(c, status)
    case None => None
    case Some(note) => Some(Proof(note, Signature(signer, note)))
  }

  /** verify_contract_sig: the proof is the agent's signature on the projection recomputed from the record. */
  predicate VerifyContractSig(c: ContractData, pubkey: string, status: ContractStatus) {
    var proof, note := GetProof(c, status), GetPreimage(c, status);
    && proof.Some? && note.Some?
    && pubkey == c.terms.agentPk
    && proof.value.id == note.value
    && proof.value.sig == Signature(c.terms.agentPk, proof.value.id)
  }

  predicate VerifyContractSigs(c: ContractData, pubkey: string) {
    && VerifyContractSig(c, pubkey, Published)
    && (c.cancel.canceled ==> VerifyContractSig(c, pubkey, Canceled))
    && (c.funding.secured ==> VerifyContractSig(c, pubkey, Secured))
    && (c.engine.activated ==> VerifyContractSig(c, pubkey, Active))
    && (c.close.closed ==> VerifyContractSig(c, pubkey, Closed))
    && (c.spend.spent ==> VerifyContractSig(c, pubkey, Spent))
    && (c.settle.settled ==> VerifyContractSig(c, pubkey, Settled))
  }

  /* ---- Templates and totals ---- */

  function CreateSpendTemplates(
    p: ProposalData, names: seq<string>, fees: seq<PaymentEntry>, enc: Encoder): seq<SpendTemplate> {
    if names == [] then []
    else
      var tmpl := SpendTemplate(names[0], GetPathVouts(names[0], p.paths, p.payments + fees, enc));
      [tmpl] + CreateSpendTemplates(p, names[1..], fees, enc)
  }

  /** One template for each name, in their order. */
  lemma {:induction false} TemplatesInOrder(
    p: ProposalData, names: seq<string>, fees: seq<PaymentEntry>, enc: Encoder)
    ensures var outputs := CreateSpendTemplates(p, names, fees, enc);
            && |outputs| == |names|
            && forall i | 0 <= i < |names| ::
                 outputs[i] == SpendTemplate(names[i], GetPathVouts(names[i], p.paths, p.payments + fees, enc))
  {
    if names != [] {
      TemplatesInOrder(p, names[1..], fees, enc);
    }
  }

  /** The size of the largest template; the source has no meaningful value for an empty list. */
  function GetMaxVoutSize(outputs: seq<SpendTemplate>, enc: Encoder): (size: nat)
    requires outputs != []
    ensures forall tmpl | tmpl in outputs :: enc.size(tmpl.vouts) <= size
    ensures exists tmpl | tmpl in outputs :: enc.size(tmpl.vouts) == size
  {
    var first := enc.size(outputs[0].vouts);
    if |outputs| == 1 then assert outputs[0] in outputs; first
    else
      var rest := GetMaxVoutSize(outputs[1..], enc);
      assert outputs[0] in outputs && forall t | t in outputs[1..] :: t in outputs;
      if first < rest then rest else first
  }

  function FindTemplate(path: string, outputs: seq<SpendTemplate>): (r: Option<SpendTemplate>)
    ensures r.Some? ==> r.value in outputs && r.value.path == path
    ensures r.None? ==> forall tmpl | tmpl in outputs :: tmpl.path != path
  {
    if outputs == [] then None
    else if outputs[0].path == path then Some(outputs[0])
    else FindTemplate(path, outputs[1..])
  }

  /* ---- Creation ---- */

  datatype CreateConfig = CreateConfig(createdAt: int, feerate: real, fees: seq<PaymentEntry>)

  function GetDeadline(p: ProposalData, published: int): int {
    match p.effective
    case Some(effective) => effective - published
    case None => published + p.deadline
  }

  /** The template of a new contract. */
  function ContractTemplate(
    config: CreateConfig, p: ProposalData, endorsements: seq<string>, signer: string, ids: Digests,
    enc: Encoder): ContractData
    requires p.paths != []
  {
    var names := GetPathNames(p.paths);
    assert p.paths[0].path in names;
    var outputs := CreateSpendTemplates(p, names, config.fees, enc);
    var subtotal := p.value + GetPayTotal(config.fees);
    var bsize := GetMaxVoutSize(outputs, enc);
    var txFees := bsize as real * config.feerate;
    var propId := ids.proposal(p);
    var cid := ids.contract(outputs, propId, config.createdAt);
    ContractData(
      Terms(signer, cid, config.createdAt, GetDeadline(p, config.createdAt), endorsements, config.feerate,
            config.fees, outputs, p.moderator, propId, subtotal, p, bsize, config.feerate * SPEND_TXIN_SIZE as real),
      None, Published, config.createdAt,
      Funds(0.0, 0.0, txFees, subtotal + txFees, bsize, 0),
      INIT_CANCEL, INIT_FUNDING, INIT_ENGINE, INIT_CLOSE, INIT_SPEND, INIT_SETTLE)
  }

  function CreateContract(
    config: CreateConfig, p: ProposalData, endorsements: seq<string>, signer: string, ids: Digests,
    enc: Encoder): ContractData
    requires p.paths != []
  {
    var template := ContractTemplate(config, p, endorsements, signer, ids, enc);
    template.(createdSig := Notarize(template, signer, Published))
  }

  /* ---- Funds ---- */

  /** A funder's partial signatures, one for each path it agreed to. */
  datatype PartialSig = PartialSig(path: string, psig: string)

  /** A deposit as the ledger and the settlement see it. */
  datatype Deposit = Deposit(dpid: string, value: real, confirmed: bool, covenant: Option<seq<PartialSig>>)

  datatype ContractError = IsCanceled | NotConfirmed | UnderFunded | NotActive | MachineNotClosed

  function AddFunds(f: Funds, d: Deposit, vinTxfee: real): Funds {
    if d.confirmed then
      f.(conf := f.conf + d.value,
         txFees := f.txFees + vinTxfee,
         txTotal := f.txTotal + (d.value + vinTxfee),
         txVsize := f.txVsize + SPEND_TXIN_SIZE,
         vinCount := f.vinCount + 1)
    else f.(pend := f.pend + d.value)
  }

  function RemFunds(f: Funds, d: Deposit, vinTxfee: real): Funds {
    if d.confirmed then
      f.(conf := f.conf - d.value,
         txFees := f.txFees - vinTxfee,
         txTotal := f.txTotal - (d.value + vinTxfee),
         txVsize := f.txVsize - SPEND_TXIN_SIZE,
         vinCount := f.vinCount - 1)
    else f.(pend := f.pend - d.value)
  }

  function AddContractFunds(c: ContractData, d: Deposit): ContractData {
    c.(funds := AddFunds(c.funds, d, c.terms.vinTxfee))
  }

  function ConfirmContractFunds(c: ContractData, d: Deposit): Result<ContractData, ContractError> {
    if !d.confirmed then Failure(NotConfirmed)
    else
      var updated := AddContractFunds(c, d);
      Success(updated.(funds := updated.funds.(pend := updated.funds.pend - d.value)))
  }

  function RemContractFunds(c: ContractData, d: Deposit): ContractData {
    c.(funds := RemFunds(c.funds, d, c.terms.vinTxfee))
  }

  function TotalValue(deposits: seq<Deposit>): real {
    if deposits == [] then 0.0 else deposits[0].value + TotalValue(deposits[1..])
  }

  /* ---- Lifecycle ---- */

  /** The counters of a secured contract, taken from its deposits alone. */
  function SecuredFunds(t: Terms, deposits: seq<Deposit>): Funds {
    var n := |deposits|;
    var txFees := t.feerate * t.txBsize as real + t.vinTxfee * n as real;
    Funds(0.0, TotalValue(deposits), txFees, t.subtotal + txFees, t.txBsize + n * SPEND_TXIN_SIZE, n)
  }

  function SecureContract(
    c: ContractData, deposits: seq<Deposit>, signer: string, updatedAt: int): Result<ContractData, ContractError> {
    var funds := SecuredFunds(c.terms, deposits);
    if c.cancel.canceled then Failure(IsCanceled)
    else if exists d | d in deposits :: !d.confirmed then Failure(NotConfirmed)
    else if funds.conf < funds.txTotal then Failure(UnderFunded)
    else
      var effectiveAt := c.terms.proposal.effective.GetOr(updatedAt);
      var updated := c.(
        funds := funds, funding := c.funding.(secured := true, effectiveAt := Some(effectiveAt)),
        status := Secured, updatedAt := updatedAt);
      Success(updated.(funding := updated.funding.(securedSig := Notarize(updated, signer, Secured))))
  }

  function CancelContract(c: ContractData, signer: string, canceledAt: int): ContractData {
    var updated := c.(
      cancel := c.cancel.(canceled := true, canceledAt := Some(canceledAt)),
      status := Canceled, updatedAt := canceledAt);
    updated.(cancel := updated.cancel.(canceledSig := Notarize(updated, signer, Canceled)))
  }

  /** `vmid` is the digest that identifies the machine. */
  function ActivateContract(c: ContractData, signer: string, activeAt: int, vmid: string): ContractData {
    var expiresAt := activeAt + c.terms.proposal.duration;
    var updated := c.(
      engine := EngineInfo(true, Some(activeAt), c.engine.activeSig, Some(M.Genesis(vmid)), Some(vmid),
        Some(expiresAt)),
      status := Active, updatedAt := activeAt);
    updated.(engine := updated.engine.(activeSig := Notarize(updated, signer, Active)))
  }

  function CloseContract(c: ContractData, vmdata: M.MachineData, signer: string): Result<ContractData, ContractError> {
    if !c.engine.activated then Failure(NotActive)
    else if !vmdata.closed then Failure(MachineNotClosed)
    else
      var updated := c.(
        close := CloseInfo(true, vmdata.closedAt, c.close.closedSig, vmdata.output),
        engine := c.engine.(machineHead := Some(vmdata.head)),
        status := Closed, updatedAt := vmdata.closedAt.GetOr(0));
      Success(updated.(close := updated.close.(closedSig := Notarize(updated, signer, Closed))))
  }

  function SpendContract(c: ContractData, txhex: string, txid: string, signer: string, spentAt: int): ContractData {
    var updated := c.(
      spend := SpendInfo(true, Some(spentAt), c.spend.spentSig, Some(txhex), Some(txid)),
      status := Spent, updatedAt := spentAt);
    updated.(spend := updated.spend.(spentSig := Notarize(updated, signer, Spent)))
  }

  datatype TxStatus = TxStatus(blockTime: int, blockHash: string, blockHeight: int)

  function SettleContract(c: ContractData, signer: string, txstatus: Option<TxStatus>, settledAt: int): ContractData {
    var info := match txstatus
      case Some(tx) =>
        SettleInfo(true, Some(tx.blockTime), c.settle.settledSig, Some(tx.blockHash), Some(tx.blockHeight))
      case None => SettleInfo(true, Some(settledAt), c.settle.settledSig, None, None);
    var updated := c.(settle := info, status := Settled, updatedAt := settledAt);
    updated.(settle := info.(settledSig := Notarize(updated, signer, Settled)))
  }
}
