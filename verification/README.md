# Verification of the escrow contract machine and its records

This project models the core of an escrow library and proves what a contract's parties rely on.
A contract is proposed, funded, secured, activated, run by a small virtual machine (the CVM)
and settled along one of its spending paths. Verify it with `dafny verify dfyconfig.toml`.

* `Machine.dfy` holds the records of the contract machine and a pure reference machine: one commit,
  one scheduled task, one schedule run, one program, one evaluation, one run of evaluations and polls.
  The commit hash is an injective constructor, and a history variable `log` keeps the commits the
  hash chain stands for, with what asked for each of them.
* `Cvm.dfy` is the machine as it runs, a class whose methods update its fields in place with the
  source's loops and early returns. Each method is proved to do what the reference machine says, so
  every theorem about the reference machine is a theorem about the class.
* `Invariants.dfy`, `Reachable.dfy`, `Frames.dfy` and `Votes.dfy` prove one invariant over every run.
  `Safety.dfy`, `Timing.dfy`, `Polling.dfy`, `Audit.dfy`, `Liveness.dfy`, `Idle.dfy`, `Moments.dfy` and
  `Statements.dfy` draw the theorems from it. `History.dfy` reads a record off its log, `Responses.dfy`
  says what each request is answered, `Methods.dfy` what the two methods make of a statement, and
  `Choice.dfy` which path a task settles on.
* `Witnesses.dfy` holds runs in which the audit, the session check or the answer to a dispute fails.
* `Text.dfy` and `Sorting.dfy` model the `|` expressions, the pattern test and the stable sort.
* `Proposal.dfy`, `Contract.dfy` and `Ledger.dfy` model the proposal checks, the contract record with
  its funding counters, the auditor's tabulation and solvency. `Lifecycle.dfy` and `Deposits.dfy` model
  the notarized lifecycles, and `Binding.dfy` what their proofs bind. `EndToEnd.dfy` joins ledger, machine, auditor and settlement.
* `Enrollment.dfy` models members joining and leaving a draft in place.

A refusal raised as a `VMError` is `VMError(fault)` and is recorded in the record's `error`; anything
else raised is `Throw(escape)` and leaves the caller's record as it was. Clock readings are parameters.

## Findings

The model follows the code. Where that differs from the documentation or from what one would expect,
a lemma says exactly when.

* The pattern test is unanchored (`src/util/base.ts:36`), so `lock` matches `unlock`. A path that a
  program may lock therefore starts locked, no statement ever commits a lock, and such a path can
  never be spent by a plain `spend` (`StartsLockedIff`, `ProgramsNeverLock`).
* A task written `close|resolve`, as in `docs/resources/get-started.md:72`, closes the machine first
  and then can never resolve; `docs/resources/intro.md:220` says it closes on `payout`, but the
  machine is left closed with no output (`CloseBeforeResolve`), and a contract closed that way has no
  settlement transaction (`RunSettles`). Exactly which lists of actions settle a machine is
  `TaskSettlesIff`; of those that only close and resolve, just the ones that resolve first
  (`ResolveFirstIff`). A task `*` settles nothing when all its paths are disputed (`WildcardSettlesIff`).
* A vote cast for an update that is refused is spent. If the members of a program sign a resolve
  before there is a dispute, they cannot sign it again when there is one, and the dispute cannot be
  answered (`DisputeAnswerableIff` says exactly when it can, `DisputeLeftUnanswered` gives such runs).
* `check_schedule` bounds a timer from above only. With a negative timer the shift of the queue
  removes the wrong task, and a task that was run stays queued (`DuePrefixIff`, `OverdueHeadRepeats`,
  and `NegativeTimerRepeats` for a schedule that passes the check); non-negative timers are assumed
  where a theorem needs them.
* The audit replays statements only, and never runs the schedule past the last of them. It rejects a
  machine that a later poll advanced: exactly when some task due by then was not idle, as the machine
  stood before the poll (`AuditAfterPollIff`), so a contract that its schedule settles does not pass
  (`ScheduledSpendRejected`). A session check evaluates a batch and audits it by single
  evaluations, which may differ after a failed statement (`SessionCheckIff`, `SessionAccepted`,
  `SessionRejected`).
* The incremental `tx_total` counts the confirmed funds and the tabulated one does not, so the funding
  check rejects a contract that has collected funds until it is secured (`LedgerRefinesTabulation`).
* A canceled contract's own proof never verifies (`SignaturePermanence`). A closed deposit may still be
  spent, and then its closing proof no longer verifies (`DepositProofsIff`, `ClosedThenSpent`).
* An endorse program whose threshold is not a number, or exceeds its number of different members,
  passes the parameter check and can never accept (`CanAcceptIff`, `RepeatedMemberNeverAccepts`).
* The commit hash is computed before the output is set, so its output field is always `"null"`; the
  head still binds the whole history (`HistoryBinding`).
* The deadline of a contract is a date when its proposal names no effective date, and a duration when it
  does; read as a date it has then already passed (`DeadlinePassedIff`).
* Leaving a draft does not always undo joining it. New program terms of any length but four leave an
  entry behind, and an entry that the draft holds without members is lost once somebody has
  joined it and left (`UndoneIff`, `MemberlessLostIff`; `ShortTermsLinger`, `MemberlessEntryLost`). A member's payment address comes
  after those of all its paths, but is searched for no further than there are payments, so it may not
  be found (`JoinThenLeaveIff`, `PaymentLeftBehind`).

## Model

| member | source | states |
|---|---|---|
| Cvm.CVMData.UpdateVMState | src/cvm/lib/state.ts:32-62 | one update, in place: a refused one changes nothing, a committed one moves one path and extends the chain, as the reference machine says |
| Responses.UpdateAnswers | src/cvm/lib/action.ts:5-63 | which updates are refused, and with which error, by stamp, action, path, the state of the path and the status; exactly those leave the record as it was |
| Cvm.CVMData.ApplyAction | src/cvm/lib/state.ts:41-51 | the switch over the action changes one path and the status, or nothing |
| Cvm.CVMData.RecordCommit | src/cvm/lib/state.ts:53-61 | the clock, step, head and, when the status ends the machine, closing and output |
| Cvm.CVMData.RunTaskPaths | src/cvm/lib/schedule.ts:49-58 | the inner loop of a task: refusals are swallowed, an output ends it |
| Cvm.CVMData.RunTask | src/cvm/lib/schedule.ts:35-68 | a whole task: every action over every path until an output |
| Choice.SpendAllSettlesFirst | src/cvm/lib/schedule.ts:35-68 | a spend on `*` in an unsettled machine, in time, outputs the first entry of the record that is open, and nothing when none is |
| Choice.SpendReadsLeftToRight | src/cvm/lib/schedule.ts:35-68 | a spend on an expression outputs the first open label of its text, read from left to right up to each separator |
| Choice.ResolveAllSettlesFirst | src/cvm/lib/schedule.ts:35-68 | in a disputed machine a resolve on `*` outputs the first entry of the record, whatever its state |
| Choice.ResolveReadsLeftToRight | src/util/base.ts:40-56 | in a disputed machine a resolve on an expression outputs the first known label of its text, read from left to right |
| Cvm.CVMData.RunSchedule | src/cvm/lib/schedule.ts:15-30 | due tasks are run and shifted until an output |
| Cvm.CVMData.RecordEntry | src/cvm/lib/methods/endorse.ts:65-103 | a vote is appended under its label and counted, or refused when it repeats, leaving the store alone |
| Cvm.CVMData.ExecEndorse | src/cvm/lib/methods/endorse.ts:9-36 | votes are recorded in turn up to the threshold; votes before a refusal stay |
| Methods.EndorseExactly | src/cvm/lib/methods/endorse.ts:9-36 | after any number of proofs that only added votes: with no more proofs an endorsement ends unaccepted, at a stranger or a repeated vote it is refused, at the vote that meets the threshold it is accepted; the votes read so far are recorded in order, no other label is touched |
| Methods.EndorseStops | src/cvm/lib/methods/endorse.ts:9-36 | every list of proofs comes to one of those ends |
| Methods.VotesStored | src/cvm/lib/program.ts:47-56 | the votes a statement added are in its program's store, whatever became of it, and no other store is changed |
| Machine.KeyInFront | src/cvm/lib/methods/endorse.ts:16 | the key read from a key of 64 digits with any signature after it is that key |
| Machine.KeyBegins | src/cvm/lib/methods/endorse.ts:16 | a key of 64 digits is read exactly from the proofs that begin with it |
| Methods.ProofsReach | src/cvm/lib/methods/endorse.ts:9-36 | new members enough for the threshold, each with a proof of its key and any signature, are accepted |
| Methods.RealProofsAnswer | src/cvm/lib/program.ts:47-56 | whenever a dispute can be answered, it is by a statement whose proofs are members' keys with any signatures after them |
| Cvm.CVMData.RunProgram | src/cvm/lib/program.ts:47-56 | a statement is loaded, guarded, executed on its store and, when accepted, committed |
| Methods.ClaimExactly | src/cvm/lib/methods/claim.ts:10-44 | a claim is accepted exactly when its first argument is a hash whose digest is the lock and its first proof is hex and begins with a member's key; each other case is refused with its own error, and the votes never change |
| Methods.ClaimRuns | src/cvm/lib/methods/claim.ts:10-44 | a loaded statement that opens the lock is committed as its update would be, and any other leaves the record as it was |
| Machine.AccessIff | src/cvm/lib/program.ts:58-108 | the guards pass exactly the statements whose action and path the program's terms name, a path with path actions only and never `null`, to a method that can run |
| Cvm.CVMData.EvalStack | src/cvm/lib/main.ts:56-73 | the loop of an evaluation with its two early returns |
| Cvm.EvalWitness | src/cvm/lib/main.ts:42-78 | a thrown error leaves the caller's record, a machine error is recorded, otherwise the new record is returned |
| Responses.StatementAnswers | src/cvm/lib/main.ts:42-78 | a statement is run on the machine that a poll at its stamp leaves, if that is still open; a refusal is recorded beside what poll and statement left, and a throw leaves the caller's record, the poll undone |
| Responses.ClosedHearsNothing | src/cvm/lib/main.ts:56-73 | a closed machine without an output hears no statement: a batch only runs the tasks due by its earliest stamp and clears the error |
| Responses.NothingEarly | src/cvm/lib/main.ts:42-95 | a poll adds no commit later than its time, and a batch none later than its last stamp |
| Cvm.EvalSchedule | src/cvm/lib/main.ts:83-95 | one poll of the schedule |
| Cvm.InitPathState | src/cvm/lib/path.ts:30-56 | one pass over the programs finds whether a path starts locked, and refuses one that could be disputed but not resolved |
| Cvm.InitVMState | src/cvm/lib/state.ts:20-30 | every path gets its starting state, or initialization fails |
| Cvm.InitVM | src/cvm/lib/main.ts:100-126 | the starting record of a machine |
| Safety.InitIff | src/cvm/lib/main.ts:100-126 | a machine can be made exactly when every path some program may dispute some program may resolve; it starts with no commit, vote, output or error, and the configured tasks in order of their timers |
| Safety.PathlessGrants | src/cvm/lib/path.ts:30-56 | a program without paths is read at initialization as granting its actions on the paths whose names hold `null`, while no statement to it may name a path |
| Cvm.VerifyExecution | src/core/validation/contract.ts:157-176 | accepts exactly when replaying the statements one by one gives a machine that agrees on every compared field |
| Audit.AuditBinds | src/core/validation/contract.ts:157-176 | given one accepted record, another is accepted with the same statements exactly when it agrees on each of the ten compared fields |
| Audit.ForgeryRejected | src/core/validation/contract.ts:157-176 | an accepted record with its output, head or closing date changed is rejected |
| Machine.PathActionsListed | src/cvm/const.ts:3-4 | the verbs treated as path actions are exactly the listed ones, with `release` and without `unlock` |
| Invariants.CommitKeeps | src/cvm/lib/state.ts:32-62 | every authorized commit keeps the whole invariant |
| Reachable.Reached | src/cvm/lib/main.ts:42-95 | the invariant holds after every run of evaluations and polls, whatever is submitted |
| Safety.MachineInvariant | src/cvm/lib/state.ts:57-61 | without a close commit: closed, output, status `spent` and one spent path are equivalent, the output names that path, and the status is `disputed` exactly when a path is |
| Safety.OutputMeansClosed | src/cvm/lib/state.ts:57-61 | in every run an output is a known path of a closed machine, and only a close commit closes without an output |
| Safety.RecordIsHistory | src/cvm/lib/state.ts:32-62 | in every run step, clock, head, status, closing, closing date, output and the state of every path are what the log of commits tells; an output comes from the last commit, which dates the closing |
| Safety.BoundedCommits | src/cvm/lib/action.ts:5-63 | the step is the number of commits, at most two per path, one for the output and one for each close |
| Safety.HistoryGrows | src/cvm/lib/main.ts:42-95 | as a run goes on the log is only extended, the clock never goes back, and once there is an output the record never changes |
| Safety.ChainBinds | src/cvm/lib/state.ts:64-72 | two commit chains are equal exactly when machine id and every (wid, stamp) are |
| Safety.HistoryBinding | src/cvm/lib/state.ts:64-72 | two runs have equal heads exactly when they committed the same history on the same machine id |
| Safety.Authority | src/cvm/lib/program.ts:47-108 | every commit is an action and path of a scheduled task at its due time, or of a statement whose program grants it; an endorsement was made on the votes of distinct members up to the threshold, still stored, each of whom signed a statement for exactly that path and action, whatever other statements name, with a proof that begins with the key; a claim came with a pre-image whose digest is the lock and a member's proof |
| Safety.AuthorityAtCommit | src/cvm/lib/methods/endorse.ts:9-36 | those statements are among the ones submitted up to the commit |
| Safety.StartsLockedIff | src/cvm/lib/path.ts:38-44 | a path starts locked exactly when some program may lock it |
| Safety.ProgramsNeverLock | src/cvm/lib/action.ts:40-63 | no statement ever commits a lock, and a path some program may lock is never locked or spent in a run |
| Votes.LabelInjective | src/cvm/lib/program.ts:81-101 | the label of a commit is the label of no other statement that passes the guards, among them the refusal of a path named `null` |
| Votes.NullPathCollides | src/cvm/lib/program.ts:82-84 | without the refusal of a path named `null` two votes would share a label |
| Votes.SlashCollides | src/schema/base.ts:29 | without the schema's refusal of `/` in path names two guarded statements would share a label |
| Votes.ExecEndorseKeeps | src/cvm/lib/methods/endorse.ts:9-36 | recorded votes stay distinct members and only grow; acceptance means the threshold is reached |
| Frames.OutputIsFinal | src/cvm/lib/main.ts:47 | once a path is output no event changes the record |
| Polling.QueueConsumption | src/cvm/lib/schedule.ts:15-30 | a poll runs a prefix of the queue, each shift removes the task just run, and without an output exactly the later tasks remain, in order |
| Polling.DuePrefixIff | src/cvm/lib/schedule.ts:74-83 | the due tasks are a prefix of the sorted queue exactly when none is due or the head is not overdue |
| Polling.OverdueHeadRepeats | src/cvm/lib/schedule.ts:25-29 | behind an overdue head a task that was run is still due in the queue |
| Polling.InitQueue | src/cvm/lib/schedule.ts:8-13 | a fresh machine has a sound queue exactly when no timer is negative |
| Polling.PollingIndependence | src/cvm/lib/main.ts:42-95 | on every reachable machine polls merge, and a poll no later than a batch's stamps changes nothing of its result but the error field |
| Polling.PollTwice | src/cvm/lib/main.ts:83-95 | two polls are one poll at the later time |
| Polling.PollThenEval | src/cvm/lib/main.ts:42-95 | a poll no later than a statement's stamp changes nothing of its evaluation but possibly the error field |
| Audit.ReplayReproduces | src/cvm/lib/main.ts:42-95 | a run of statements and polls that ends in a statement is reproduced by replaying the statements alone |
| Audit.AuditAccepts | src/core/validation/contract.ts:157-176 | the auditor accepts every such run |
| Audit.AuditAfterPoll | src/core/validation/contract.ts:164-175 | with one more poll at the end, the auditor accepts exactly when it committed nothing, and never when it gave an output |
| Idle.AuditAfterPollIff | src/core/validation/contract.ts:157-176 | a machine that the audit accepts with some statements is accepted with them after one more poll exactly when it had an output or every pending task due by then is idle as it stands |
| Idle.AuditRunAfterPollIff | src/core/validation/contract.ts:157-176 | the same for a run of single statements and polls, replayed by its statements |
| Idle.PollIdleIff | src/cvm/lib/schedule.ts:15-30 | a poll of any machine in a run commits nothing exactly when it has an output or all its due tasks are idle |
| Idle.TaskIdleIff | src/cvm/lib/schedule.ts:35-68 | a task leaves a running machine as it was exactly when it is idle: no close, no open path to spend or lock, none to dispute, and no dispute to resolve |
| Audit.ReplayReproducesBatches | src/cvm/lib/main.ts:42-95 | with batches of any size, a run is reproduced by replaying the statements its batches got to, in stamp order within each batch |
| Audit.AuditAcceptsBatches | src/core/validation/contract.ts:157-176 | the auditor accepts every such run with those statements |
| Audit.BatchIsFold | src/cvm/lib/main.ts:42-78 | a batch is the fold of single evaluations over the statements it gets to, and it gets to all unless one fails or the machine closes |
| Audit.BatchIsWholeFold | src/cvm/lib/main.ts:42-78 | without an error or a close on null a batch is the whole fold in stamp order |
| Audit.BatchIgnoresOrder | src/cvm/util/base.ts:33-38 | with distinct stamps a batch does not depend on the order of its statements |
| Audit.SessionCheckIff | src/core/validation/contract.ts:230-264 | auditing a batch by single evaluations, in the order the batch sorted them, accepts exactly when the statements it did not get to would commit nothing |
| Audit.SessionAccepted | src/core/validation/contract.ts:230-264 | it accepts whenever the batch got to every statement or gave an output |
| Witnesses.SessionRejected | src/core/validation/contract.ts:230-264 | at any dates and with any ids, two statements, the first by a stranger, whose session check is rejected |
| Witnesses.ScheduledSpendRejected | src/core/validation/contract.ts:157-176 | activated at any date, a machine that its schedule settled, whose audit is rejected |
| Sorting.SortByStable | src/cvm/util/base.ts:33-38 | sorting keeps the order of elements with equal keys |
| Sorting.SortIgnoresOrder | src/cvm/lib/schedule.ts:8-13 | with distinct keys the sorted order depends on the elements only |
| Timing.NoTaskRefused | src/cvm/lib/state.ts:74-83 | in every reachable machine of an accepted schedule, and at every moment of a poll of it, a pending task lies between the last commit and expiration, and is never refused for its time, however much of it has run |
| Timing.NegativeTimerRepeats | src/core/validation/proposal.ts:102-114 | activated at any date, a schedule with a negative timer passes the check, and two polls at one time run its closing task twice |
| Timing.TaskNeverLate | src/cvm/lib/schedule.ts:35-68 | a task that passes the stamp check goes on passing it while it runs |
| Timing.CheckScheduleIff | src/core/validation/proposal.ts:102-114 | the check passes exactly the schedules of tasks before the expiration, of known actions on known paths |
| Liveness.CatchAllSettles | src/cvm/lib/action.ts:33-63 | a `spend` and `resolve` task outputs nothing exactly when all its paths are locked and no path is disputed, and then changes nothing |
| Liveness.CatchAllLiveness | src/cvm/lib/schedule.ts:35-68 | a poll past such a task gives an output, or the task was reached with all its paths locked and none disputed |
| Moments.CatchAllRun | src/cvm/lib/main.ts:42-95 | over a whole run, such a task that has left the queue settled the machine, or the machine was closed, or the run got to the task, in a poll or before a statement, with all its paths locked and none disputed |
| Liveness.TaskSettlesIff | src/cvm/lib/schedule.ts:35-68 | in every run, a task with any actions on known paths settles the machine exactly when its list of actions does, by whether a path is open, all are disputed, and the status |
| Liveness.ActionsSettleIff | src/cvm/lib/action.ts:5-63 | the same of any list of actions and known paths, from any unsettled machine |
| Liveness.ResolveFirstIff | src/cvm/lib/schedule.ts:46-66 | a task that only closes and resolves settles exactly a disputed machine, and only when the resolve comes first |
| Liveness.WildcardSettlesIff | src/cvm/lib/state.ts:41-61 | a task with every action settles exactly when not all its paths are disputed |
| Liveness.CloseBeforeResolve | src/cvm/lib/schedule.ts:46-66 | a task that lists close before resolve commits the close only, and leaves a closed machine without output |
| Statements.CanAcceptIff | src/cvm/lib/methods/endorse.ts:9-103 | with the votes it holds, an endorse program can accept exactly when its threshold is a number within its different members and some member has not voted under the label |
| Statements.RepeatedMemberNeverAccepts | src/cvm/lib/methods/endorse.ts:38-59 | parameters that pass the check and can never accept |
| Statements.CheckParamsIff | src/cvm/lib/methods/endorse.ts:38-59 | for distinct keys and a number as threshold, the check passes exactly the programs that need a vote to accept and can accept |
| Statements.DisputeIsAnswerable | src/cvm/lib/path.ts:30-56 | after a program's dispute, while the machine is neither settled nor closed, some program is loaded for a resolve on that path and the resolve settles the machine at any stamp in the window |
| Statements.EndorseResolvesIff | src/cvm/lib/program.ts:47-56 | the whole evaluation of some statement to an endorse program settles a disputed machine exactly when the program has votes left on that resolve |
| Statements.DisputeAnswerableIff | src/cvm/lib/program.ts:47-108 | some statement, to any program, settles a disputed machine on a path exactly when a program that may resolve on it still can: an endorsement with votes left, or a claim with a pre-image and a member |
| Witnesses.DisputeLeftUnanswered | src/cvm/lib/program.ts:53-54 | at any dates and with any ids, a run whose resolve was refused before the dispute, after which no statement resolves |
| Statements.StatementsAreTotal | src/core/validation/witness.ts:30-62 | verified, well-formed statements never make an evaluation throw, one by one or as a batch |
| Statements.VerifyWitnessIff | src/core/validation/witness.ts:30-62 | with checked parameters a statement is verified exactly when its program grants the action, on a path that is known and granted if it names one, the machine is unsettled, the stamp is in the window and every proof begins with a member's key |
| Text.ExpressionAgreement | src/util/base.ts:29-56 | on checked expressions over labels of which none is a substring of another, the pattern test and the access list agree, and the two lists partition the labels |
| Machine.ValidActionsSubstringFree | src/cvm/const.ts:4 | no action's name occurs inside another's |
| Machine.ActionsAgree | src/util/base.ts:29-56 | so a checked expression of actions means the same to the guard on statements and to the tasks |
| Text.ExpressionDisagreement | src/util/base.ts:29-56 | whenever one label contains another the two readings disagree on some checked expression |
| Text.JoinSplit | src/util/base.ts:48 | splitting loses nothing |
| Text.IsHexIff | src/util/validate.ts:17-28 | a string passes the hex test exactly when it writes out some bytes, in letters of either case |
| Proposal.PathNamesAscending | src/core/lib/proposal.ts:65-72 | path names come out strictly ascending and so distinct |
| Proposal.GetPathTotal | src/core/lib/proposal.ts:124-141 | the total of every path, in the order of the names |
| Proposal.PathPaysSubtotal | src/core/validation/proposal.ts:66-85 | after the payments check every path's outputs sum to value plus fees |
| Proposal.PathPaysAsListed | src/core/lib/proposal.ts:102-118 | the outputs of a path pay each of its listed entries and each payment, value and address, as often as it is listed, and nobody else |
| Proposal.CheckPaymentsIff | src/core/validation/proposal.ts:66-85 | the payments check passes exactly when the payments do not exceed the value and the outputs of every path sum to it |
| Proposal.PathValueAdds | src/core/lib/proposal.ts:53-59 | one more entry adds its value to the total of its own path and of no other |
| Contract.GetMaxVoutSize | src/core/module/contract/util.ts:82-87 | a size that bounds every template and is one of theirs |
| Contract.TemplatesInOrder | src/core/module/contract/util.ts:93-112 | one template for each path name, in their order, with the outputs of that path |
| Ledger.LedgerRefinesTabulation | src/core/module/contract/data.ts:96-138 | after any adds, confirmations and removals the counters are the tabulation's, the total exceeding it by the confirmed funds; the funding check accepts exactly while no funds are counted |
| Ledger.RemoveUndoesAdd | src/core/module/contract/data.ts:96-138 | removing and adding a deposit undo each other on every field |
| Ledger.ConfirmIsReplace | src/core/module/contract/data.ts:113-121 | confirming is removing the pending deposit and adding the confirmed one |
| Ledger.SecuredVerifies | src/core/validation/contract.ts:130-142 | whatever securing returns passes the funding check |
| Ledger.SecureIffPaid | src/core/module/contract/data.ts:140-167 | with all deposits confirmed, securing succeeds exactly when the balance is at most zero |
| Ledger.BalanceDepositSettles | src/core/module/contract/util.ts:171-180 | a deposit of the balance and its input fee brings the balance to zero |
| Ledger.EqualSharesSecure | src/core/module/contract/util.ts:171-174 | any number of equal rounded-up shares with their input fees secures a contract |
| Ledger.GetSettlementTx | src/core/module/contract/util.ts:127-145 | exists exactly when the template of the output path does and every deposit holds a partial signature for that path; the template's outputs, and for each deposit an input with the combined signature |
| Ledger.Solvency | src/core/module/contract/data.ts:140-167 | from a checked proposal through any funding to a secured contract, the settlement on any path pays each address what is listed for the path and the payments, in all exactly the subtotal, and leaves the fee its size calls for |
| Lifecycle.SignaturePermanence | src/core/module/contract/state.ts:52-155 | along every ordered life the publication proof verifies, and all current proofs verify exactly when the contract was never canceled |
| Lifecycle.LifeKeepsProofs | src/core/validation/contract.ts:117-128 | each step leaves every earlier signed projection as it was signed |
| Lifecycle.LifeIsRemembered | src/core/module/contract/data.ts:140-246 | along every ordered life, what a record says of its securing, activation, closing, spending, settlement and cancellation was brought by a step that was taken: dates, expiration, ids, output and head, on confirmed funds that cover the total |
| Lifecycle.SecuredIff | src/core/module/contract/data.ts:140-171 | securing succeeds exactly for an uncanceled contract with confirmed deposits worth the subtotal, the fee on the largest template and that on each input |
| Lifecycle.ClosedIff | src/core/module/contract/data.ts:192-209 | closing succeeds exactly for an active contract whose machine is closed |
| Binding.ProofBinds | src/core/module/contract/util.ts:213-225 | a record with another's current proof verifies exactly when it has the same fields signed for that status, listed one by one |
| Binding.TamperingShows | src/core/module/contract/util.ts:213-225 | in a record whose proofs all verify, another key in place of a proof's own, another signer, or any altered signed field is rejected |
| Deposits.DepositProofsIff | src/core/module/deposit/state.ts:35-120 | after any operations in any order all proofs of a deposit verify exactly when it was not both closed and spent |
| Deposits.AttemptKeeps | src/core/module/deposit/data.ts:63-167 | each operation keeps the other projections as they were signed |
| Deposits.ClosedThenSpent | src/core/module/deposit/data.ts:133-148 | a closed deposit can be spent, and its proofs then do not all verify |
| Deposits.DepositLife | src/core/module/deposit/data.ts:63-167 | after any operations the flags, dates and status of a deposit agree, it expires its locktime after its confirmation, and the status says which operations are still allowed; an operation succeeds exactly when the flags allow it |
| Binding.DepositProofBinds | src/core/module/deposit/util.ts:57-69 | a deposit with another's current proof verifies exactly when it has the same fields signed for that status |
| Binding.DepositTamperingShows | src/core/module/deposit/util.ts:57-69 | in a deposit whose proofs all verify, another key in place of a proof's own or any altered signed field is rejected |
| EndToEnd.RunSettles | src/core/module/contract/data.ts:192-209 | from proposal, funding, securing and activation on, a closed run closes the contract and passes the activation, funding and closing checks; a settlement exists exactly when the machine has an output, and then pays everyone what is listed and is solvent |
| EndToEnd.SecuringGives | src/core/module/contract/data.ts:140-167 | creating, funding and securing give a record with its ids, templates, funding check and fee |
| EndToEnd.SettledRunPassesAudit | src/core/validation/contract.ts:189-228 | after a run that ends with the statement that settled it, the whole audit accepts the spent contract exactly when its transaction id is that of the settlement, and rejects the contract before it is spent |
| EndToEnd.SettlementAuditBinds | src/core/validation/contract.ts:215-228 | of two records with the same terms, one of which passes the whole audit, the other passes exactly when they agree on every field the audit reads |
| EndToEnd.ContractIdBinds | src/core/validation/contract.ts:104-115 | with digests that tell different things apart, two verified records have the same contract id exactly when proposal, templates and date of creation are the same |
| EndToEnd.TermsBind | src/core/validation/contract.ts:104-115 | a verified record with another proposal id or contract id is rejected, and no path of a verified record has two different templates |
| EndToEnd.ActivatedMachine | src/core/module/contract/data.ts:173-190 | the machine of an activated contract runs the proposal's engine, programs and schedule on exactly its path names, from the activation for its duration |
| EndToEnd.DeadlinePassedIff | src/core/module/contract/util.ts:63-77 | the deadline is a date without an effective date, and with one the time left to it: as a date it has passed at creation unless the effective date is more than twice the creation date |
| Enrollment.Draft.AddMemberData | src/client/lib/enrollment.ts:75-109 | a member's paths, payment and program entries are added in place |
| Enrollment.Draft.RemMemberData | src/client/lib/enrollment.ts:111-130 | the entries of the addresses that the wallet's searches find are taken out in place, and entries of exactly five elements that name the member are dropped |
| Enrollment.JoinBrings | src/client/lib/session.ts:48-64 | a key joins a role exactly when it is no member and a seat is left; it is then the last member, and brings each path of the role with its value to an address of its own, in order, and the payment to the next one |
| Enrollment.JoinNeedsRole | src/client/lib/session.ts:48-64 | a role that is not listed cannot be joined |
| Enrollment.LeavingUndoesJoining | src/client/lib/session.ts:48-76 | however members join and leave, with leaves whose searches reach the addresses of the role, the draft is as if only the remaining ones had joined in that order: the same paths, payments, members under every program's terms, and entries with members; seats are never exceeded |
| Enrollment.MemberlessLostIff | src/client/lib/enrollment.ts:120-127 | an entry without members is there after any edits exactly when it was there at first and no role listing it was ever joined |
| Enrollment.JoinThenLeaveIff | src/client/lib/enrollment.ts:75-130 | joining and leaving restores the whole proposal exactly when the role lists no entry held without members and the searches reach its addresses |
| Enrollment.UndoneIff | src/client/lib/enrollment.ts:120-127 | on any list of programs, leaving undoes joining one exactly when its terms are new and four, or the entry found is not of four elements |
| Enrollment.ShortTermsLinger | src/client/lib/enrollment.ts:120-127 | three terms leave an entry behind |
| Enrollment.MemberlessEntryLost | src/client/lib/enrollment.ts:120-127 | a draft's entry of four elements is lost |
| Enrollment.PaymentLeftBehind | src/client/lib/enrollment.ts:118-119 | with a search that tries as many addresses as its limit, the payment of a role with one path stays |

## Left out

- Elliptic curves, covenants, taproot, transaction encoding and signature checking: a signature is a symbolic pair of key and note, and a template is its list of outputs with an abstract encoded length.
- Digests: proposal, contract and transaction ids are arbitrary functions of what they are computed from; machine ids, deposit ids and program ids are given by the caller. Distinct program ids are assumed only where a lemma says so; a program's id does not cover its actions and paths.
- Schema parsing and JSON copies of the machine record: taken as the identity on well-formed records. Path names without `/`, and program paths that are strings, come from the schemas of proposals; statements may name any path.
- Pattern characters other than `|` and the single `*`: expressions are alternations of literals, which is what label characters allow.
- Sharing of array objects: the stores are values in the machine's class, and the caller's arrays that `get_statements` and `get_path_vouts` sort in place are not changed.
- The order of the default sort over payments: any permutation of them; the totals do not depend on it.
- A proposal without paths: creating a contract from one takes the maximum of no sizes, which is no number; creation requires a path.
- Floating point: amounts, fee rates and thresholds are reals.
- Address validity and network checks, fee rate policy, date policy, `sats_vbyte` and the seat tabulation: single-branch facts.
- Wall-clock defaults: the times are parameters.
- The wallet library: how far `has_address` searches for a limit is an arbitrary function of index and limit, and a wallet is known by its member's key.
- HTTP clients, the oracle and the signer and client wrappers: input and output only.
- Statements.StatementsAreTotal: the hash and the signatures of a statement are taken as checked, and public keys are checked for their format only.
- Lifecycle.SignaturePermanence: the steps are taken in their order, which the code itself enforces only in part.
- Safety.BoundedCommits: a close commit needs no path, so each one adds to the bound.
