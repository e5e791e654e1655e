/**
 The contract machine as values: its record, and a pure reference machine that says what
 one update, one task, one schedule run and one evaluation make of a record.
 */
module Machine {
  import opened Wrappers
  import opened Text
  import Sorting

  /* ---- Actions ---- */

  const PATH_ACTIONS := ["lock", "release", "dispute", "resolve", "spend"]
  const VALID_ACTIONS := ["close"] + PATH_ACTIONS

  datatype Verb = Close | Lock | Release | Unlock | Dispute | Resolve | Spend | Unknown

  function VerbOf(action: string): Verb {
    if action == "close" then Close
    else if action == "lock" then Lock
    else if action == "release" then Release
    else if action == "unlock" then Unlock
    else if action == "dispute" then Dispute
    else if action == "resolve" then Resolve
    else if action == "spend" then Spend
    else Unknown
  }

  /** Membership in PATH_ACTIONS, by verb: `release` is listed and `unlock` is not. */
  predicate IsPathVerb(verb: Verb) {
    verb.Lock? || verb.Release? || verb.Dispute? || verb.Resolve? || verb.Spend?
  }

  predicate IsPathAction(action: string) {
    IsPathVerb(VerbOf(action))
  }

  lemma {:induction false} PathActionsListed(action: string)
    ensures IsPathAction(action) <==> action in PATH_ACTIONS
    ensures action in VALID_ACTIONS <==> IsPathAction(action) || action == "close"
  {
    assert PATH_ACTIONS[0] == "lock" && PATH_ACTIONS[1] == "release" && PATH_ACTIONS[2] == "dispute";
    assert PATH_ACTIONS[3] == "resolve" && PATH_ACTIONS[4] == "spend";
  }

  /* ---- Path states and status ---- */

  datatype PathState = Opened | Locked | Disputed | Spent {
    /** The value of the state in the source's enumeration. */
    function Rank(): nat {
      match this
      case Opened => 0
      case Locked => 1
      case Disputed => 2
      case Spent => 3
    }
  }

  datatype PathEntry = PathEntry(name: string, state: PathState)

  datatype VMStatus = InitStatus | OpenStatus | DisputedStatus | ClosedStatus | SpentStatus

  /* ---- Outcomes ---- */

  /** Failures raised as VMError: recorded in the `error` field. */
  datatype Fault =
    | StampBeforeCommit(stamp: int, commitAt: int)
    | StampExpired(stamp: int, expiresAt: int)
    | ActionNotFound
    | AlreadyDisputed
    | NotInDispute
    | AlreadyLocked
    | PathInDispute
    | PathNotLocked
    | PathLocked
    | NotAMember
    | RecordExists(tag: string, pubkey: string)
    | InvalidPreimage
    | DigestMismatch
    | InvalidProof

  /** Failures raised as anything else: they leave the evaluator. */
  datatype Escape =
    | ProgramNotFound
    | StoreNotFound
    | ActionNotAllowed
    | InvalidPathName
    | PathNotExpected
    | NoPathAccess
    | PathNotAllowed
    | PathRequired
    | MethodNotFound
    | InvalidHashLock
    | PathIsNull
    | PathMissing
    | UnrecognizedAction

  datatype Outcome = Done | VMError(fault: Fault) | Throw(escape: Escape)

  /* ---- Programs, stores and statements ---- */

  /** What Number() makes of a literal. */
  datatype JsNumber = NaN | Num(value: real)

  /** The digest of a pre-image, with SHA-256 taken as collision free, or some other literal. */
  datatype HashLock = Sha256(preimage: string) | NotAHash(literal: string)

  datatype Method =
    | Endorse(threshold: JsNumber, members: seq<string>)
    | Claim(lock: HashLock, members: seq<string>)
    | NoMethod(name: string)

  datatype ProgramData = ProgramData(progId: string, rule: Method, actions: string, paths: Option<string>)

  datatype Vote = Vote(tag: string, pubkeys: seq<string>)
  datatype StoreEntry = StoreEntry(progId: string, votes: seq<Vote>)

  datatype WitnessData = WitnessData(
    wid: string, progId: string, action: string, path: Option<string>,
    args: seq<string>, sigs: seq<string>, stamp: int)

  datatype Task = Task(timer: int, actions: string, paths: string)

  /* ---- The machine record ---- */

  /** The commit chain: a hash with an injective constructor for each thing hashed. */
  datatype Head =
    | Genesis(vmid: string)
    | Commit(wid: string, prev: Head, output: string, step: nat, stamp: int)

  datatype VMInput = VMInput(action: string, path: Option<string>, stamp: int, wid: string)

  /** What asked for a commit; `voters` are the members recorded for it at that moment. */
  datatype Origin = ByTask(task: Task) | ByProgram(program: ProgramData, statement: WitnessData, voters: seq<string>)

  datatype LogEntry = LogEntry(input: VMInput, origin: Origin)

  datatype CVMState = CVMState(paths: seq<PathEntry>, status: VMStatus, store: seq<StoreEntry>)

  /** `log` is a history variable: the source keeps only the hash chain over it. */
  datatype MachineData = MachineData(
    activeAt: int, closed: bool, closedAt: Option<int>, commitAt: int, engine: string,
    error: Option<Fault>, expiresAt: int, head: Head, output: Option<string>,
    pathnames: seq<string>, programs: seq<ProgramData>, state: CVMState, step: nat,
    tasks: seq<Task>, updatedAt: int, vmid: string, log: seq<LogEntry>)

  datatype MachineConfig = MachineConfig(
    activeAt: int, engine: string, expiresAt: int, pathnames: seq<string>,
    programs: seq<ProgramData>, schedule: seq<Task>, vmid: string)

  /** An outcome together with the record it leaves. */
  datatype Step = Step(outcome: Outcome, data: MachineData)

  /* ---- Path transitions ---- */

  function RunPathAction(action: string, pstate: PathState, status: VMStatus): Result<PathState, Fault> {
    match VerbOf(action)
    case Spend => ExecSpend(pstate)
    case Dispute => ExecDispute(pstate)
    case Lock => ExecLock(pstate)
    case Unlock => ExecRelease(pstate)
    case Resolve => ExecResolve(status)
    case _ => Failure(ActionNotFound)
  }

  function ExecDispute(pstate: PathState): Result<PathState, Fault> {
    if pstate.Disputed? then Failure(AlreadyDisputed) else Success(Disputed)
  }

  /** Only the machine's status is tested: any path may be the one resolved on. */
  function ExecResolve(status: VMStatus): Result<PathState, Fault> {
    if !status.DisputedStatus? then Failure(NotInDispute) else Success(Spent)
  }

  function ExecLock(pstate: PathState): Result<PathState, Fault> {
    if pstate.Locked? then Failure(AlreadyLocked)
    else if pstate.Disputed? then Failure(PathInDispute)
    else Success(Locked)
  }

  function ExecRelease(pstate: PathState): Result<PathState, Fault> {
    if !pstate.Locked? then Failure(PathNotLocked) else Success(Opened)
  }

  function ExecSpend(pstate: PathState): Result<PathState, Fault> {
    if pstate.Locked? then Failure(PathLocked)
    else if pstate.Disputed? then Failure(PathInDispute)
    else Success(Spent)
  }

  function UpdatePathVMStatus(status: VMStatus, pstate: PathState): VMStatus {
    match pstate
    case Spent => SpentStatus
    case Disputed => DisputedStatus
    case _ => status
  }

  /** The first path with this name. */
  function FindPath(paths: seq<PathEntry>, name: string): (idx: Option<nat>)
    ensures idx.Some? ==> idx.value < |paths| && paths[idx.value].name == name
    ensures idx.Some? ==> forall i | 0 <= i < idx.value :: paths[i].name != name
    ensures idx.None? ==> forall i | 0 <= i < |paths| :: paths[i].name != name
  {
    FindIndex(paths, (e: PathEntry) => e.name == name)
  }

  /* ---- One update ---- */

  function CheckUpdateStamp(d: MachineData, stamp: int): Outcome {
    if stamp < d.commitAt then VMError(StampBeforeCommit(stamp, d.commitAt))
    else if stamp >= d.expiresAt then VMError(StampExpired(stamp, d.expiresAt))
    else Done
  }

  /** What an input makes of the machine's state, or why it is refused. */
  function Transition(state: CVMState, input: VMInput): Result<CVMState, Outcome> {
    if VerbOf(input.action).Close? then Success(state.(status := ClosedStatus))
    else if IsPathAction(input.action) then
      if input.path.None? then Failure(Throw(PathIsNull))
      else
        match FindPath(state.paths, input.path.value)
        case None => Failure(Throw(PathMissing))
        case Some(i) =>
          match RunPathAction(input.action, state.paths[i].state, state.status)
          case Failure(fault) => Failure(VMError(fault))
          case Success(pstate) =>
            Success(state.(
              paths := state.paths[i := PathEntry(input.path.value, pstate)],
              status := UpdatePathVMStatus(state.status, pstate)))
    else Failure(Throw(UnrecognizedAction))
  }

  /** The record after a commit that leaves `state`. */
  function Committed(d: MachineData, input: VMInput, origin: Origin, state: CVMState): MachineData {
    var ends := state.status.ClosedStatus? || state.status.SpentStatus?;
    d.(state := state,
       step := d.step + 1,
       commitAt := input.stamp,
       head := Commit(input.wid, d.head, d.output.GetOr("null"), d.step + 1, input.stamp),
       closed := d.closed || ends,
       closedAt := if ends then Some(input.stamp) else d.closedAt,
       output := if ends then input.path else d.output,
       log := d.log + [LogEntry(input, origin)])
  }

  function Update(d: MachineData, input: VMInput, origin: Origin): Step {
    var check := CheckUpdateStamp(d, input.stamp);
    if !check.Done? then Step(check, d)
    else
      match Transition(d.state, input)
      case Failure(outcome) => Step(outcome, d)
      case Success(state) => Step(Done, Committed(d, input, origin, state))
  }

  /* ---- Tasks ---- */

  /** A label of the machine's actions that begins anywhere inside another is that other one. */
  lemma OnlyWhole(a: string, b: string, i: nat)
    requires a in VALID_ACTIONS && b in VALID_ACTIONS && i <= |a| && b <= a[i..]
    ensures a == b
  {
    assert VALID_ACTIONS == ["close", "lock", "release", "dispute", "resolve", "spend"];
    assert |b| >= 4 && i + |b| <= |a|;
    assert a[i] == b[0] && a[i + 1] == b[1] && a[i + 2] == b[2];
  }

  /** No action's name occurs inside another's. */
  lemma ValidActionsSubstringFree()
    ensures SubstringFree(VALID_ACTIONS)
  {
    forall a, b | a in VALID_ACTIONS && b in VALID_ACTIONS && Contains(a, b)
      ensures a == b
    {
      var i :| 0 <= i <= |a| && b <= a[i..];
      OnlyWhole(a, b, i);
    }
  }

  /** So a checked expression of actions means the same to the guard on statements and to the tasks. */
  lemma ActionsAgree(expr: string, action: string)
    requires CheckRegex(VALID_ACTIONS, expr) && action in VALID_ACTIONS
    ensures Regex(action, expr) <==> action in GetAccessList(expr, VALID_ACTIONS).wlist
  {
    ValidActionsSubstringFree();
    ExpressionAgreement(expr, VALID_ACTIONS);
  }

  function TaskActions(task: Task): seq<string> {
    GetAccessList(task.actions, VALID_ACTIONS).wlist
  }

  function PathNames(paths: seq<PathEntry>): (names: seq<string>)
    ensures |names| == |paths|
    ensures forall i | 0 <= i < |paths| :: names[i] == paths[i].name
  {
    if paths == [] then [] else [paths[0].name] + PathNames(paths[1..])
  }

  lemma NamesFound(paths: seq<PathEntry>, name: string)
    ensures FindPath(paths, name).Some? <==> name in PathNames(paths)
  {
    if i: nat :| i < |paths| && paths[i].name == name {
      assert PathNames(paths)[i] == name;
    }
  }

  function TaskPaths(task: Task, paths: seq<PathEntry>): seq<string> {
    GetAccessList(task.paths, PathNames(paths)).wlist
  }

  function TaskInput(d: MachineData, task: Task, action: string, path: Option<string>): VMInput {
    VMInput(action, path, d.activeAt + task.timer, d.vmid)
  }

  datatype Flow = Flow(data: MachineData, stop: bool)

  /** One path action of a task over its paths: refusals are swallowed, an output stops the task. */
  function RunPaths(d: MachineData, task: Task, action: string, plist: seq<string>): Flow
    decreases |plist|
  {
    if plist == [] then Flow(d, false)
    else
      var next := Update(d, TaskInput(d, task, action, Some(plist[0])), ByTask(task));
      if next.outcome.Done? && next.data.output.Some? then Flow(next.data, true)
      else RunPaths(next.data, task, action, plist[1..])
  }

  function RunActions(d: MachineData, task: Task, alist: seq<string>, plist: seq<string>): MachineData
    decreases |alist|
  {
    if alist == [] then d
    else if IsPathAction(alist[0]) then
      var flow := RunPaths(d, task, alist[0], plist);
      if flow.stop then flow.data else RunActions(flow.data, task, alist[1..], plist)
    else
      var next := Update(d, TaskInput(d, task, alist[0], None), ByTask(task));
      RunActions(next.data, task, alist[1..], plist)
  }

  function RunTask(d: MachineData, task: Task): MachineData {
    RunActions(d, task, TaskActions(task), TaskPaths(task, d.state.paths))
  }

  /** Array.shift on the queue. */
  function Shift(d: MachineData): MachineData {
    d.(tasks := if d.tasks == [] then [] else d.tasks[1..])
  }

  predicate IsDue(d: MachineData, task: Task, stopAt: int) {
    d.updatedAt <= d.activeAt + task.timer <= stopAt
  }

  function GetTasks(d: MachineData, stopAt: int): seq<Task> {
    Filter(d.tasks, task => IsDue(d, task, stopAt))
  }

  function RunTasks(d: MachineData, due: seq<Task>): MachineData
    decreases |due|
  {
    if due == [] then d
    else
      var next := Shift(RunTask(d, due[0]));
      if next.output.Some? then next else RunTasks(next, due[1..])
  }

  function RunSchedule(d: MachineData, stopAt: int): MachineData {
    RunTasks(d, GetTasks(d, stopAt))
  }

  /* ---- Programs ---- */

  function FindProgram(programs: seq<ProgramData>, progId: string): (idx: Option<nat>)
    ensures idx.Some? ==> idx.value < |programs| && programs[idx.value].progId == progId
    ensures idx.Some? ==> forall i | 0 <= i < idx.value :: programs[i].progId != progId
    ensures idx.None? ==> forall i | 0 <= i < |programs| :: programs[i].progId != progId
  {
    FindIndex(programs, (e: ProgramData) => e.progId == progId)
  }

  function FindStore(stores: seq<StoreEntry>, progId: string): (idx: Option<nat>)
    ensures idx.Some? ==> idx.value < |stores| && stores[idx.value].progId == progId
    ensures idx.Some? ==> forall i | 0 <= i < idx.value :: stores[i].progId != progId
    ensures idx.None? ==> forall i | 0 <= i < |stores| :: stores[i].progId != progId
  {
    FindIndex(stores, (e: StoreEntry) => e.progId == progId)
  }

  /** The access guards of load_program, in order. */
  function CheckAccess(program: ProgramData, w: WitnessData): Outcome {
    if !Regex(w.action, program.actions) then Throw(ActionNotAllowed)
    else if w.path.Some? then
      if w.path.value == "null" then Throw(InvalidPathName)
      else if !IsPathAction(w.action) then Throw(PathNotExpected)
      else if program.paths.None? then Throw(NoPathAccess)
      else if !Regex(w.path.value, program.paths.value) then Throw(PathNotAllowed)
      else CheckMethod(program.rule)
    else if IsPathAction(w.action) then Throw(PathRequired)
    else CheckMethod(program.rule)
  }

  /** What a program's terms permit: an action it names, and with a path action a path it names, which is not `null`. */
  predicate Permits(program: ProgramData, action: string, path: Option<string>) {
    && Regex(action, program.actions)
    && match path
       case None => action !in PATH_ACTIONS
       case Some(p) => action in PATH_ACTIONS && p != "null" && program.paths.Some? && Regex(p, program.paths.value)
  }

  predicate HasMethod(rule: Method) {
    rule.Endorse? || (rule.Claim? && rule.lock.Sha256?)
  }

  /** The guards let through exactly the statements that a program's terms permit, to a method that can be run. */
  lemma AccessIff(program: ProgramData, w: WitnessData)
    ensures CheckAccess(program, w).Done? <==> Permits(program, w.action, w.path) && HasMethod(program.rule)
    ensures !CheckAccess(program, w).Done? ==> CheckAccess(program, w).Throw?
  {
    PathActionsListed(w.action);
  }

  function CheckMethod(rule: Method): Outcome {
    match rule
    case NoMethod(_) => Throw(MethodNotFound)
    case Claim(NotAHash(_), _) => Throw(InvalidHashLock)
    case _ => Done
  }

  datatype Loaded = Loaded(program: nat, store: nat)

  function LoadProgram(
    programs: seq<ProgramData>, stores: seq<StoreEntry>, w: WitnessData): (r: Result<Loaded, Outcome>)
    ensures r.Success? ==> r.value.program < |programs| && r.value.store < |stores|
  {
    match FindProgram(programs, w.progId)
    case None => Failure(Throw(ProgramNotFound))
    case Some(i) =>
      match FindStore(stores, w.progId)
      case None => Failure(Throw(StoreNotFound))
      case Some(j) =>
        var access := CheckAccess(programs[i], w);
        if access.Done? then Success(Loaded(i, j)) else Failure(access)
  }

  /* ---- Methods ---- */

  function Label(path: Option<string>, action: string): string {
    path.GetOr("null") + "/" + action
  }

  function FindVote(votes: seq<Vote>, tag: string): (idx: Option<nat>)
    ensures idx.Some? ==> idx.value < |votes| && votes[idx.value].tag == tag
    ensures idx.Some? ==> forall i | 0 <= i < idx.value :: votes[i].tag != tag
    ensures idx.None? ==> forall i | 0 <= i < |votes| :: votes[i].tag != tag
  {
    FindIndex(votes, (e: Vote) => e.tag == tag)
  }

  /** The members recorded under a label. */
  function Recorded(votes: seq<Vote>, tag: string): seq<string> {
    match FindVote(votes, tag)
    case None => []
    case Some(i) => votes[i].pubkeys
  }

  /** The store with one more vote, or None when that member already voted on the label. */
  function WithVote(votes: seq<Vote>, tag: string, pubkey: string): Option<seq<Vote>> {
    match FindVote(votes, tag)
    case None => Some(votes + [Vote(tag, [pubkey])])
    case Some(i) =>
      if pubkey in votes[i].pubkeys then None
      else Some(votes[i := Vote(tag, votes[i].pubkeys + [pubkey])])
  }

  predicate Reaches(count: nat, threshold: JsNumber) {
    match threshold
    case NaN => false
    case Num(t) => count as real >= t
  }

  datatype Execution = Execution(outcome: Outcome, accepted: bool, votes: seq<Vote>)

  /** The pubkey in front of a proof. */
  function PubOf(proof: string): string {
    Prefix(proof, 64)
  }

  /** A key of 64 digits in front of any signature is the key that is read. */
  lemma KeyInFront(pub: string, sig: string)
    requires |pub| == 64
    ensures PubOf(pub + sig) == pub
  {
  }

  /**
   What is read of a proof is how it begins; and a key of 64 digits is read exactly from the
   proofs that begin with it.
   */
  lemma KeyBegins(proof: string, pub: string)
    ensures PubOf(proof) <= proof
    ensures |pub| == 64 ==> (PubOf(proof) == pub <==> pub <= proof)
  {
  }

  /** The endorse method over the remaining signatures. Votes recorded before a refusal stay. */
  function ExecEndorse(
    votes: seq<Vote>, tag: string, sigs: seq<string>, threshold: JsNumber, members: seq<string>): Execution
    decreases |sigs|
  {
    if sigs == [] then Execution(Done, false, votes)
    else
      var pub := PubOf(sigs[0]);
      if pub !in members then Execution(VMError(NotAMember), false, votes)
      else
        match WithVote(votes, tag, pub)
        case None => Execution(VMError(RecordExists(tag, pub)), false, votes)
        case Some(next) =>
          if Reaches(|Recorded(next, tag)|, threshold) then Execution(Done, true, next)
          else ExecEndorse(next, tag, sigs[1..], threshold, members)
  }

  function ExecClaim(lock: HashLock, members: seq<string>, w: WitnessData): Outcome {
    if w.args == [] || !IsHash(w.args[0]) then VMError(InvalidPreimage)
    else if Sha256(w.args[0]) != lock then VMError(DigestMismatch)
    else if w.sigs == [] || !IsHex(w.sigs[0]) then VMError(InvalidProof)
    else if PubOf(w.sigs[0]) !in members then VMError(NotAMember)
    else Done
  }

  function ExecMethod(rule: Method, votes: seq<Vote>, w: WitnessData): Execution {
    match rule
    case Endorse(threshold, members) => ExecEndorse(votes, Label(w.path, w.action), w.sigs, threshold, members)
    case Claim(lock, members) =>
      var outcome := ExecClaim(lock, members, w);
      Execution(outcome, outcome.Done?, votes)
    case NoMethod(_) => Execution(Throw(MethodNotFound), false, votes)
  }

  function WithVotes(d: MachineData, i: nat, votes: seq<Vote>): MachineData
    requires i < |d.state.store|
  {
    d.(state := d.state.(store := d.state.store[i := d.state.store[i].(votes := votes)]))
  }

  function WitnessInput(w: WitnessData): VMInput {
    VMInput(w.action, w.path, w.stamp, w.wid)
  }

  /** The members an endorse program has recorded for a statement's path and action. */
  function Voters(rule: Method, votes: seq<Vote>, w: WitnessData): seq<string> {
    if rule.Endorse? then Recorded(votes, Label(w.path, w.action)) else []
  }

  function RunProgram(d: MachineData, w: WitnessData): Step {
    match LoadProgram(d.programs, d.state.store, w)
    case Failure(outcome) => Step(outcome, d)
    case Success(Loaded(i, j)) =>
      var program := d.programs[i];
      var exec := ExecMethod(program.rule, d.state.store[j].votes, w);
      var voted := WithVotes(d, j, exec.votes);
      var origin := ByProgram(program, w, Voters(program.rule, exec.votes, w));
      if exec.outcome.Done? && exec.accepted then Update(voted, WitnessInput(w), origin)
      else Step(exec.outcome, voted)
  }

  /* ---- The two entry points ---- */

  function GetStatements(ws: seq<WitnessData>): seq<WitnessData> {
    Sorting.SortBy(ws, (w: WitnessData) => w.stamp)
  }

  /** Statements in order; a closed machine ends the evaluation. */
  function EvalStack(d: MachineData, stack: seq<WitnessData>): Step
    decreases |stack|
  {
    if stack == [] then Step(Done, d)
    else
      var timed := RunSchedule(d, stack[0].stamp);
      if timed.closed then Step(Done, timed)
      else
        var next := RunProgram(timed, stack[0]);
        if !next.outcome.Done? || next.data.closed then next
        else EvalStack(next.data, stack[1..])
  }

  /** A thrown error leaves the caller's record as it was; a VMError is recorded. */
  function EvalWitness(d: MachineData, ws: seq<WitnessData>): Step {
    if d.output.Some? then Step(Done, d)
    else
      var last := EvalStack(d.(error := None), GetStatements(ws));
      match last.outcome
      case Done => last
      case VMError(fault) => Step(Done, last.data.(error := Some(fault)))
      case Throw(escape) => Step(Throw(escape), d)
  }

  function EvalSchedule(d: MachineData, stopAt: int): MachineData {
    if d.output.Some? then d else RunSchedule(d, stopAt)
  }

  /* ---- Initialization ---- */

  function ProgramPaths(program: ProgramData): string {
    program.paths.GetOr("null")
  }

  /** A program whose expressions grant this action on this path, as init_path_state reads them. */
  predicate Grants(program: ProgramData, action: string, path: string) {
    Regex(path, ProgramPaths(program)) && Regex(action, program.actions)
  }

  predicate AnyGrants(programs: seq<ProgramData>, action: string, path: string) {
    exists p | p in programs :: Grants(p, action, path)
  }

  /** The starting state of a path; None when a dispute on it could never be resolved. */
  function InitPathState(path: string, programs: seq<ProgramData>): Option<PathState> {
    if AnyGrants(programs, "dispute", path) && !AnyGrants(programs, "resolve", path) then None
    else Some(if AnyGrants(programs, "unlock", path) then Locked else Opened)
  }

  function InitVMState(pathnames: seq<string>, programs: seq<ProgramData>): (r: Option<seq<PathEntry>>)
    ensures r.Some? ==> PathNames(r.value) == pathnames
    ensures r.Some? ==> forall i | 0 <= i < |pathnames| ::
              InitPathState(pathnames[i], programs) == Some(r.value[i].state)
  {
    if pathnames == [] then Some([])
    else
      match (InitPathState(pathnames[0], programs), InitVMState(pathnames[1..], programs))
      case (Some(s), Some(rest)) =>
        var paths := [PathEntry(pathnames[0], s)] + rest;
        assert PathNames(paths) == pathnames;
        Some(paths)
      case _ => None
  }

  function InitStores(programs: seq<ProgramData>): (stores: seq<StoreEntry>)
    ensures |stores| == |programs|
    ensures forall i | 0 <= i < |programs| :: stores[i] == StoreEntry(programs[i].progId, [])
  {
    if programs == [] then [] else [StoreEntry(programs[0].progId, [])] + InitStores(programs[1..])
  }

  function TaskTimer(task: Task): int {
    task.timer
  }

  function InitTasks(schedule: seq<Task>): seq<Task> {
    Sorting.SortBy(schedule, TaskTimer)
  }

  function InitVM(cfg: MachineConfig): Option<MachineData> {
    match InitVMState(cfg.pathnames, cfg.programs)
    case None => None
    case Some(paths) =>
      Some(MachineData(
        cfg.activeAt, false, None, cfg.activeAt, cfg.engine, None, cfg.expiresAt, Genesis(cfg.vmid), None,
        cfg.pathnames, cfg.programs, CVMState(paths, InitStatus, InitStores(cfg.programs)), 0,
        InitTasks(cfg.schedule), cfg.activeAt, cfg.vmid, []))
  }

  /* ---- Runs ---- */

  datatype Event = Statements(ws: seq<WitnessData>) | Poll(stopAt: int)

  function Apply(d: MachineData, event: Event): Step {
    match event
    case Statements(ws) => EvalWitness(d, ws)
    case Poll(t) => Step(Done, EvalSchedule(d, t))
  }

  /** A caller that keeps its record when an evaluation throws. */
  function Run(d: MachineData, events: seq<Event>): MachineData
    decreases |events|
  {
    if events == [] then d else Run(Apply(d, events[0]).data, events[1..])
  }

  /** `d` is what these events leave of a machine that starts from `cfg`. */
  ghost predicate IsRun(cfg: MachineConfig, events: seq<Event>, d: MachineData) {
    InitVM(cfg).Some? && d == Run(InitVM(cfg).value, events)
  }
}
