/**
 From a proposal to its settlement: a contract that was created, funded, secured, activated
 and run by its machine, and what the auditor and the settlement make of it.
 */
module EndToEnd {
  import opened Wrappers
  import opened Proposal
  import opened Contract
  import opened Ledger
  import M = Machine
  import Audit
  import Safety
  import Invariants
  import Reachable

  /* ---- The auditor's checks ---- */

  /** The machine a contract runs; None until it is active. */
  function GetMachineConfig(c: ContractData): Option<M.MachineConfig> {
    var p := c.terms.proposal;
    match c.engine
    case EngineInfo(true, Some(activeAt), _, _, Some(vmid), Some(expiresAt)) =>
      Some(M.MachineConfig(activeAt, p.engine, expiresAt, GetPathNames(p.paths), p.programs, p.schedule, vmid))
    case _ => None
  }

  /** The ids are those of the terms, and each template is the one found for its path. */
  predicate VerifyData(c: ContractData, ids: Digests) {
    && c.terms.propId == ids.proposal(c.terms.proposal)
    && c.terms.cid == ids.contract(c.terms.outputs, ids.proposal(c.terms.proposal), c.terms.createdAt)
    && forall tmpl | tmpl in c.terms.outputs :: FindTemplate(tmpl.path, c.terms.outputs) == Some(tmpl)
  }

  predicate VerifyActivation(c: ContractData, vm: M.MachineData) {
    && !c.cancel.canceled && c.engine.activated
    && c.engine.activeAt == Some(vm.activeAt) && c.engine.machineVmid == Some(vm.vmid)
    && c.engine.expiresAt == Some(vm.activeAt + c.terms.proposal.duration)
  }

  predicate VerifyExecution(c: ContractData, vm: M.MachineData, ws: seq<M.WitnessData>) {
    var cfg := GetMachineConfig(c);
    cfg.Some? && Audit.ExecutionMatches(cfg.value, vm, ws)
  }

  predicate VerifyClose(c: ContractData, vm: M.MachineData) {
    && vm.closed && c.close.closed
    && vm.closedAt == c.close.closedAt && c.engine.machineHead == Some(vm.head) && vm.output == c.close.machineVout
  }

  function Outpoints(funds: seq<Deposit>): (points: seq<string>)
    ensures |points| == |funds| && forall i | 0 <= i < |funds| :: points[i] == funds[i].dpid
  {
    if funds == [] then [] else [funds[0].dpid] + Outpoints(funds[1..])
  }

  /** The id of the transaction that spends these deposits on the template of the output. */
  function SettlementId(c: ContractData, funds: seq<Deposit>, ids: Digests): Option<string> {
    match Settlement(c, funds)
    case None => None
    case Some(tx) => Some(ids.tx(Outpoints(funds), tx.vout))
  }

  predicate VerifySpending(c: ContractData, funds: seq<Deposit>, ids: Digests) {
    c.close.closed && c.spend.spent && SettlementId(c, funds, ids).Some?
      && SettlementId(c, funds, ids) == c.spend.spentTxid
  }

  /** verify_contract_settlement. */
  predicate VerifySettlement(
    c: ContractData, funds: seq<Deposit>, ws: seq<M.WitnessData>, vm: M.MachineData, ids: Digests, enc: Encoder)
    requires c.terms.outputs != []
  {
    && VerifyData(c, ids)
    && VerifyFunding(c, funds, enc)
    && VerifyActivation(c, vm)
    && VerifyExecution(c, vm, ws)
    && VerifyClose(c, vm)
    && VerifySpending(c, funds, ids)
  }

  /* ---- A contract from its inputs ---- */

  /** All that goes into a secured contract. */
  datatype Deal = Deal(
    config: CreateConfig, proposal: ProposalData, endorsements: seq<string>, signer: string,
    ops: seq<FundOp>, deposits: seq<Deposit>, securedAt: int)

  function Created(deal: Deal, ids: Digests, enc: Encoder): ContractData
    requires deal.proposal.paths != []
  {
    CreateContract(deal.config, deal.proposal, deal.endorsements, deal.signer, ids, enc)
  }

  /** A checked proposal with paths, and funding that confirms and removes only what is there. */
  ghost predicate Sound(deal: Deal, ids: Digests, enc: Encoder) {
    && Permutes(enc)
    && deal.proposal.paths != [] && CheckPayments(deal.proposal)
    && AllPermitted(Account(Created(deal, ids, enc), []), deal.ops)
  }

  /** Created, funded step by step, and secured with the given deposits. */
  ghost function Secure(deal: Deal, ids: Digests, enc: Encoder): Result<ContractData, ContractError>
    requires Sound(deal, ids, enc)
  {
    var funded := ApplyFunds(Account(Created(deal, ids, enc), []), deal.ops).contract;
    SecureContract(funded, deal.deposits, deal.signer, deal.securedAt)
  }

  /** The secured contract, activated. */
  ghost function Activate(deal: Deal, ids: Digests, enc: Encoder, activeAt: int, vmid: string): ContractData
    requires Sound(deal, ids, enc) && Secure(deal, ids, enc).Success?
  {
    ActivateContract(Secure(deal, ids, enc).value, deal.signer, activeAt, vmid)
  }

  /** What is used of a secured record. */
  ghost predicate IsSecured(secured: ContractData, deal: Deal, ids: Digests, enc: Encoder) {
    var p, t, deposits := deal.proposal, secured.terms, deal.deposits;
    && t.proposal == p && Priced(secured, enc) && VerifyData(secured, ids)
    && t.fees == deal.config.fees
    && t.subtotal == p.value + GetPayTotal(deal.config.fees)
    && t.outputs == CreateSpendTemplates(p, GetPathNames(p.paths), deal.config.fees, enc)
    && !secured.cancel.canceled && secured.spend == INIT_SPEND
    && VerifyFunding(secured, deposits, enc)
    && secured.funds.txVsize == t.txBsize + |deposits| * SPEND_TXIN_SIZE
    && TotalValue(deposits) - t.subtotal >= FeeFor(t.feerate, secured.funds.txVsize)
  }

  lemma {:induction false} TemplatesFound(p: ProposalData, names: seq<string>, fees: seq<PaymentEntry>, enc: Encoder)
    requires Distinct(names)
    ensures var outputs := CreateSpendTemplates(p, names, fees, enc);
            forall tmpl | tmpl in outputs :: FindTemplate(tmpl.path, outputs) == Some(tmpl)
    ensures forall tmpl | tmpl in CreateSpendTemplates(p, names, fees, enc) :: tmpl.path in names
  {
    if names != [] {
      TemplatesFound(p, names[1..], fees, enc);
      assert forall n | n in names[1..] :: n != names[0];
    }
  }

  lemma CreatedVerifies(deal: Deal, ids: Digests, enc: Encoder)
    requires deal.proposal.paths != []
    ensures VerifyData(Created(deal, ids, enc), ids)
  {
    PathNamesAscending(deal.proposal.paths);
    TemplatesFound(deal.proposal, GetPathNames(deal.proposal.paths), deal.config.fees, enc);
  }

  lemma SecuringGives(deal: Deal, ids: Digests, enc: Encoder)
    requires Sound(deal, ids, enc) && Secure(deal, ids, enc).Success?
    ensures IsSecured(Secure(deal, ids, enc).value, deal, ids, enc)
  {
    var c := Created(deal, ids, enc);
    CreatedIsPriced(deal.config, deal.proposal, deal.endorsements, deal.signer, ids, enc);
    CreatedVerifies(deal, ids, enc);
    ApplyFundsBalances(Account(c, []), deal.ops, enc);
    var funded := ApplyFunds(Account(c, []), deal.ops).contract;
    SecuredCovers(funded, deal.deposits, deal.signer, deal.securedAt);
    SecuredVerifies(funded, deal.deposits, deal.signer, deal.securedAt, enc);
    assert c.spend == INIT_SPEND;
  }

  /* ---- Closing and settling ---- */

  /** What a closed contract's record says of its machine. */
  lemma ClosedRecord(
    secured: ContractData, deposits: seq<Deposit>, signer: string, activeAt: int, vmid: string, d: M.MachineData,
    enc: Encoder)
    requires secured.terms.outputs != [] && !secured.cancel.canceled && VerifyFunding(secured, deposits, enc)
    requires d.closed && d.activeAt == activeAt && d.vmid == vmid
    ensures var active := ActivateContract(secured, signer, activeAt, vmid);
            var closed := CloseContract(active, d, signer);
            && closed.Success? && closed.value.terms == secured.terms && closed.value.spend == secured.spend
            && GetMachineConfig(closed.value) == GetMachineConfig(active)
            && VerifyFunding(closed.value, deposits, enc)
            && VerifyActivation(closed.value, d) && VerifyClose(closed.value, d)
  {}

  /**
   A closed record of this deal's machine: it passes the funding, activation and closing
   checks, it can be settled exactly when the machine has an output, and the settlement is
   then solvent. Without one, the machine was closed by a close commit.
   */
  ghost predicate Settled(
    secured: ContractData, closed: ContractData, deal: Deal, cfg: M.MachineConfig, d: M.MachineData, enc: Encoder) {
    && closed.terms == secured.terms && closed.terms.outputs != [] && GetMachineConfig(closed) == Some(cfg)
    && VerifyFunding(closed, deal.deposits, enc) && VerifyActivation(closed, d) && VerifyClose(closed, d)
    && !closed.spend.spent
    && (Settlement(closed, deal.deposits).Some? <==> d.output.Some?)
    && (d.output.Some? ==> Solvent(secured, closed, deal.deposits, enc))
    && (d.output.None? ==> Invariants.Closes(d.log) > 0)
  }

  /**
   From the proposal on: any closed run of the active contract's machine closes the contract,
   which passes the funding, activation and closing checks. It can be settled exactly when
   the machine has an output, and its settlement is then solvent. A machine that was closed
   by a close commit leaves the funds without a settlement transaction.
   */
  lemma {:induction false} RunSettles(
    deal: Deal, ids: Digests, enc: Encoder, activeAt: int, vmid: string,
    cfg: M.MachineConfig, events: seq<M.Event>, d: M.MachineData)
    requires Sound(deal, ids, enc) && Secure(deal, ids, enc).Success?
    requires GetMachineConfig(Activate(deal, ids, enc, activeAt, vmid)) == Some(cfg)
    requires M.IsRun(cfg, events, d) && d.closed
    ensures var closed := CloseContract(Activate(deal, ids, enc, activeAt, vmid), d, deal.signer);
            closed.Success? && Settled(Secure(deal, ids, enc).value, closed.value, deal, cfg, d, enc)
  {
    SecuringGives(deal, ids, enc);
    SecuredRunSettles(Secure(deal, ids, enc).value, deal, ids, enc, activeAt, vmid, cfg, events, d);
  }

  lemma SecuredRunSettles(
    secured: ContractData, deal: Deal, ids: Digests, enc: Encoder, activeAt: int, vmid: string,
    cfg: M.MachineConfig, events: seq<M.Event>, d: M.MachineData)
    requires CheckPayments(deal.proposal) && Permutes(enc) && IsSecured(secured, deal, ids, enc)
    requires GetMachineConfig(ActivateContract(secured, deal.signer, activeAt, vmid)) == Some(cfg)
    requires M.IsRun(cfg, events, d) && d.closed
    ensures var closed := CloseContract(ActivateContract(secured, deal.signer, activeAt, vmid), d, deal.signer);
            closed.Success? && Settled(secured, closed.value, deal, cfg, d, enc)
  {
    var start := Reachable.Reached(cfg, events);
    Safety.OutputMeansClosed(cfg, events, d);
    ClosedRecord(secured, deal.deposits, deal.signer, activeAt, vmid, d, enc);
    if d.output.Some? {
      var closed := CloseContract(ActivateContract(secured, deal.signer, activeAt, vmid), d, deal.signer).value;
      SecuredIsSolvent(deal.proposal, deal.config.fees, enc, secured, closed, deal.deposits, d.output.value);
    }
  }

  /* ---- The whole audit ---- */

  /**
   A run the auditor can replay: single statements no earlier than the polls before them, the
   last event a statement, and no throw.
   */
  ghost predicate Auditable(cfg: M.MachineConfig, events: seq<M.Event>)
    requires M.InitVM(cfg).Some?
  {
    && (forall task | task in cfg.schedule :: 0 <= task.timer)
    && Audit.Singles(events) && Audit.PollsPrecede(events) && Audit.NeverThrows(M.InitVM(cfg).value, events)
    && (events == [] || events[|events| - 1].Statements?)
  }

  lemma AuditableMatches(cfg: M.MachineConfig, events: seq<M.Event>, d: M.MachineData)
    requires M.IsRun(cfg, events, d) && Auditable(cfg, events)
    ensures Audit.ExecutionMatches(cfg, d, Audit.StatementsOf(events))
    ensures d.output.Some? ==> d.closed
  {
    Audit.AuditAccepts(cfg, events);
    Safety.OutputMeansClosed(cfg, events, d);
  }

  /** Spending a closed record leaves all that the other checks read. */
  lemma SpendKeepsChecks(
    c: ContractData, funds: seq<Deposit>, ids: Digests, enc: Encoder, vm: M.MachineData, txhex: string,
    txid: string, signer: string, at: int)
    requires c.terms.outputs != []
    ensures var spent := SpendContract(c, txhex, txid, signer, at);
            && spent.terms == c.terms && spent.spend.spent && spent.spend.spentTxid == Some(txid)
               && spent.close == c.close
            && GetMachineConfig(spent) == GetMachineConfig(c)
            && (VerifyFunding(spent, funds, enc) <==> VerifyFunding(c, funds, enc))
            && (VerifyActivation(spent, vm) <==> VerifyActivation(c, vm))
            && (VerifyClose(spent, vm) <==> VerifyClose(c, vm))
            && SettlementId(spent, funds, ids) == SettlementId(c, funds, ids)
  {
    var spent := SpendContract(c, txhex, txid, signer, at);
    assert spent.terms == c.terms && spent.funds == c.funds && spent.engine == c.engine && spent.close == c.close
        && spent.cancel == c.cancel;
  }

  lemma SpentAudit(
    c: ContractData, funds: seq<Deposit>, ws: seq<M.WitnessData>, vm: M.MachineData, cfg: M.MachineConfig,
    ids: Digests, enc: Encoder, txhex: string, txid: string, signer: string, at: int)
    requires c.terms.outputs != [] && GetMachineConfig(c) == Some(cfg) && VerifyData(c, ids)
    requires VerifyFunding(c, funds, enc) && VerifyActivation(c, vm) && VerifyClose(c, vm)
    requires Audit.ExecutionMatches(cfg, vm, ws)
    ensures VerifySettlement(SpendContract(c, txhex, txid, signer, at), funds, ws, vm, ids, enc)
       <==> SettlementId(c, funds, ids) == Some(txid)
  {
    SpendKeepsChecks(c, funds, ids, enc, vm, txhex, txid, signer, at);
  }

  /**
   A run that never throws and ends with the statement that settled it, however its statements
   and polls were interleaved: once its contract is spent the whole audit accepts it exactly
   when the recorded transaction id is that of the settlement, and before that it does not.
   */
  lemma {:induction false} SettledRunPassesAudit(
    deal: Deal, ids: Digests, enc: Encoder, activeAt: int, vmid: string,
    cfg: M.MachineConfig, events: seq<M.Event>, d: M.MachineData, txhex: string, txid: string, at: int)
    requires Sound(deal, ids, enc) && Secure(deal, ids, enc).Success?
    requires GetMachineConfig(Activate(deal, ids, enc, activeAt, vmid)) == Some(cfg)
    requires M.IsRun(cfg, events, d) && d.output.Some? && Auditable(cfg, events)
    ensures var closed := CloseContract(Activate(deal, ids, enc, activeAt, vmid), d, deal.signer);
            && closed.Success? && closed.value.terms.outputs != []
            && var ws, spent := Audit.StatementsOf(events), SpendContract(closed.value, txhex, txid, deal.signer, at);
            && SettlementId(closed.value, deal.deposits, ids).Some?
            && (VerifySettlement(spent, deal.deposits, ws, d, ids, enc)
               <==> SettlementId(closed.value, deal.deposits, ids) == Some(txid))
            && !VerifySettlement(closed.value, deal.deposits, ws, d, ids, enc)
  {
    var secured := Secure(deal, ids, enc).value;
    SecuringGives(deal, ids, enc);
    AuditableMatches(cfg, events, d);
    SecuredRunSettles(secured, deal, ids, enc, activeAt, vmid, cfg, events, d);
    var closed := CloseContract(ActivateContract(secured, deal.signer, activeAt, vmid), d, deal.signer).value;
    SpentAudit(closed, deal.deposits, Audit.StatementsOf(events), d, cfg, ids, enc, txhex, txid, deal.signer, at);
  }

  /* ---- What the audit binds ---- */

  predicate SameFunding(c: ContractData, c': ContractData) {
    && c'.funds.pend + c'.funds.conf == c.funds.pend + c.funds.conf && c'.funds.vinCount == c.funds.vinCount
    && c'.funds.txFees == c.funds.txFees && c'.funds.txTotal == c.funds.txTotal && c'.funds.txVsize == c.funds.txVsize
  }

  predicate SameActivation(c: ContractData, c': ContractData) {
    && c'.cancel.canceled == c.cancel.canceled
    && c'.engine.activated == c.engine.activated && c'.engine.activeAt == c.engine.activeAt
    && c'.engine.machineVmid == c.engine.machineVmid && c'.engine.expiresAt == c.engine.expiresAt
  }

  predicate SameClose(c: ContractData, c': ContractData) {
    && c'.close.closed == c.close.closed && c'.close.closedAt == c.close.closedAt
    && c'.close.machineVout == c.close.machineVout && c'.engine.machineHead == c.engine.machineHead
  }

  predicate SameSpending(c: ContractData, c': ContractData) {
    c'.spend.spent == c.spend.spent && c'.spend.spentTxid == c.spend.spentTxid
  }

  /** The fields of a record, beside its terms, that the audit reads. */
  predicate SameAudited(c: ContractData, c': ContractData) {
    SameFunding(c, c') && SameActivation(c, c') && SameClose(c, c') && SameSpending(c, c')
  }

  lemma FundingBinds(c: ContractData, c': ContractData, funds: seq<Deposit>, enc: Encoder)
    requires c.terms == c'.terms && c.terms.outputs != [] && VerifyFunding(c, funds, enc)
    ensures VerifyFunding(c', funds, enc) <==> SameFunding(c, c')
  {
    assert TabulateFunds(c', funds, enc) == TabulateFunds(c, funds, enc);
  }

  lemma ActivationBinds(c: ContractData, c': ContractData, vm: M.MachineData)
    requires c.terms == c'.terms && VerifyActivation(c, vm)
    ensures VerifyActivation(c', vm) <==> SameActivation(c, c')
    ensures VerifyActivation(c', vm) ==> GetMachineConfig(c') == GetMachineConfig(c)
  {
  }

  lemma CloseBinds(c: ContractData, c': ContractData, vm: M.MachineData)
    requires VerifyClose(c, vm)
    ensures VerifyClose(c', vm) <==> SameClose(c, c')
  {
  }

  lemma SpendingBinds(c: ContractData, c': ContractData, funds: seq<Deposit>, ids: Digests)
    requires c.terms == c'.terms && VerifySpending(c, funds, ids) && SameClose(c, c')
    ensures VerifySpending(c', funds, ids) <==> SameSpending(c, c')
  {
    assert SettlementId(c', funds, ids) == SettlementId(c, funds, ids);
  }

  /**
   Of two records with the same terms, one of which the audit accepts, it accepts the other
   exactly when they agree on every field it reads: none of them can be forged.
   */
  lemma {:induction false} SettlementAuditBinds(
    c: ContractData, c': ContractData, funds: seq<Deposit>, ws: seq<M.WitnessData>, vm: M.MachineData, ids: Digests,
    enc: Encoder)
    requires c.terms == c'.terms && c.terms.outputs != [] && VerifySettlement(c, funds, ws, vm, ids, enc)
    ensures VerifySettlement(c', funds, ws, vm, ids, enc) <==> SameAudited(c, c')
  {
    FundingBinds(c, c', funds, enc);
    ActivationBinds(c, c', vm);
    CloseBinds(c, c', vm);
    if SameClose(c, c') {
      SpendingBinds(c, c', funds, ids);
    }
  }

  /** Digests that tell different things apart. */
  ghost predicate Injective(ids: Digests) {
    && (forall p, q :: ids.proposal(p) == ids.proposal(q) ==> p == q)
    && (forall outputs, prop, at, outputs', prop', at' ::
          ids.contract(outputs, prop, at) == ids.contract(outputs', prop', at') ==>
            outputs == outputs' && prop == prop' && at == at')
  }

  /** Of two verified records with the same contract id, the proposal, the templates and the date are the same. */
  lemma {:induction false} ContractIdBinds(c: ContractData, c': ContractData, ids: Digests)
    requires Injective(ids) && VerifyData(c, ids) && VerifyData(c', ids)
    ensures c.terms.cid == c'.terms.cid <==>
              c.terms.proposal == c'.terms.proposal && c.terms.outputs == c'.terms.outputs
              && c.terms.createdAt == c'.terms.createdAt
  {
    var t, t' := c.terms, c'.terms;
    if t.cid == t'.cid {
      assert ids.contract(t.outputs, t.propId, t.createdAt) == ids.contract(t'.outputs, t'.propId, t'.createdAt);
    }
  }

  /**
   A verified record with another proposal id or contract id is not verified, and no path of a
   verified record has two different templates.
   */
  lemma {:induction false} TermsBind(
    c: ContractData, ids: Digests, propId: string, cid: string, tmpl: SpendTemplate, tmpl': SpendTemplate)
    requires VerifyData(c, ids)
    ensures VerifyData(c.(terms := c.terms.(propId := propId, cid := cid)), ids) <==>
              propId == c.terms.propId && cid == c.terms.cid
    ensures tmpl in c.terms.outputs && tmpl' in c.terms.outputs && tmpl.path == tmpl'.path ==> tmpl == tmpl'
  {
    var c' := c.(terms := c.terms.(propId := propId, cid := cid));
    assert c'.terms.outputs == c.terms.outputs && c'.terms.proposal == c.terms.proposal;
  }

  /* ---- Dates ---- */

  /**
   The machine of an activated contract has the proposal's engine, programs and schedule and
   its path names, and runs from the activation for the proposal's duration.
   */
  lemma {:induction false} ActivatedMachine(c: ContractData, signer: string, activeAt: int, vmid: string)
    ensures var p, cfg := c.terms.proposal, GetMachineConfig(ActivateContract(c, signer, activeAt, vmid));
            && cfg.Some? && cfg.value.activeAt == activeAt && cfg.value.expiresAt == activeAt + p.duration
            && cfg.value.vmid == vmid && cfg.value.engine == p.engine
            && cfg.value.programs == p.programs && cfg.value.schedule == p.schedule
            && Ascending(cfg.value.pathnames)
            && forall name :: name in cfg.value.pathnames <==> exists e :: e in p.paths && e.path == name
  {
    PathNamesAscending(c.terms.proposal.paths);
  }

  /**
   The deadline of a contract is a date when the proposal names no effective date, and
   otherwise the time from creation to that date: read as a date, it has then passed at
   creation unless the effective date is more than twice the date of creation.
   */
  lemma {:induction false} DeadlinePassedIff(deal: Deal, ids: Digests, enc: Encoder)
    requires deal.proposal.paths != []
    ensures var t, p := Created(deal, ids, enc).terms, deal.proposal;
            && t.createdAt == deal.config.createdAt
            && (t.deadlineAt <= t.createdAt <==>
                  match p.effective
                  case None => p.deadline <= 0
                  case Some(effective) => effective <= 2 * t.createdAt)
  {
  }
}
