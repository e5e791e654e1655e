/**
 What every run of a contract machine keeps, whatever statements and polls arrive and in
 whatever order: the invariant, and the induction that carries it through a run.
 */
module Invariants {
  import opened Wrappers
  import opened Text
  import opened Machine
  import opened Votes
  import opened History

  /* ---- Counting ---- */

  /** Commits that closed the machine without a path. */
  function Closes(log: seq<LogEntry>): nat {
    if log == [] then 0
    else Closes(log[..|log| - 1]) + if VerbOf(log[|log| - 1].input.action).Close? then 1 else 0
  }

  function SumRank(paths: seq<PathEntry>): nat {
    if paths == [] then 0 else paths[0].state.Rank() + SumRank(paths[1..])
  }

  lemma {:induction false} SumRankUpdate(paths: seq<PathEntry>, i: nat, entry: PathEntry)
    requires i < |paths|
    ensures SumRank(paths[i := entry]) == SumRank(paths) - paths[i].state.Rank() + entry.state.Rank()
  {
    if i == 0 {
      assert paths[0 := entry][1..] == paths[1..];
    } else {
      SumRankUpdate(paths[1..], i - 1, entry);
      assert paths[i := entry][1..] == paths[1..][i - 1 := entry];
    }
  }

  /** Ranks are at most 2 except where a path is spent, and at most `k` paths are. */
  lemma {:induction false} SumRankBound(paths: seq<PathEntry>, spentAt: Option<nat>)
    requires forall i | 0 <= i < |paths| && paths[i].state.Spent? :: spentAt == Some(i)
    ensures SumRank(paths) <= 2 * |paths| + if spentAt.Some? then 1 else 0
  {
    if paths != [] {
      var rest := match spentAt case Some(k) => if k == 0 then None else Some(k - 1) case None => None;
      forall i | 0 <= i < |paths[1..]| && paths[1..][i].state.Spent?
        ensures rest == Some(i)
      {
        assert paths[i + 1].state.Spent?;
      }
      SumRankBound(paths[1..], rest);
    }
  }

  /* ---- The commit chain ---- */

  /** The head that a machine reaches by committing a log. */
  function Chain(vmid: string, log: seq<LogEntry>): Head {
    if log == [] then Genesis(vmid)
    else
      var last := log[|log| - 1].input;
      Commit(last.wid, Chain(vmid, log[..|log| - 1]), "null", |log|, last.stamp)
  }

  /* ---- The invariant, piece by piece ---- */

  ghost predicate Shape(cfg: MachineConfig, d: MachineData) {
    && d.activeAt == cfg.activeAt && d.updatedAt == cfg.activeAt && d.expiresAt == cfg.expiresAt
    && d.engine == cfg.engine && d.vmid == cfg.vmid
    && d.pathnames == cfg.pathnames && d.programs == cfg.programs
    && PathNames(d.state.paths) == cfg.pathnames
    && (d.closed <==> d.closedAt.Some?)
    && (forall task | task in d.tasks :: task in cfg.schedule)
  }

  ghost predicate SomePathIs(paths: seq<PathEntry>, state: PathState) {
    exists i | 0 <= i < |paths| :: paths[i].state == state
  }

  ghost predicate PathsInv(cfg: MachineConfig, d: MachineData) {
    var paths, status := d.state.paths, d.state.status;
    && (forall i | 0 <= i < |paths| && paths[i].state.Spent? :: d.output == Some(paths[i].name) && status.SpentStatus?)
    && (d.output.Some? ==> d.closed && d.output.value in cfg.pathnames)
    && (status.SpentStatus? ==> d.output.Some? && SomePathIs(paths, Spent))
    && (d.output.None? && status.DisputedStatus? ==> SomePathIs(paths, Disputed))
    && (Closes(d.log) == 0 ==>
          && !status.ClosedStatus?
          && (d.closed ==> status.SpentStatus?)
          && (d.output.None? && SomePathIs(paths, Disputed) ==> status.DisputedStatus?))
  }

  /** Without a close commit, a dispute once committed keeps the machine disputed until it settles. */
  ghost predicate DisputeInv(d: MachineData) {
    Closes(d.log) == 0 && d.output.None? && HasDispute(d.log) ==> d.state.status.DisputedStatus?
  }

  ghost predicate HasDispute(log: seq<LogEntry>) {
    exists i | 0 <= i < |log| :: VerbOf(log[i].input.action).Dispute?
  }

  ghost predicate RankInv(start: seq<PathEntry>, d: MachineData) {
    var paths := d.state.paths;
    && d.step == |d.log|
    && d.step + SumRank(start) <= SumRank(paths) + Closes(d.log)
    && |start| == |paths|
    && (forall i | 0 <= i < |paths| :: start[i].state.Rank() <= paths[i].state.Rank())
  }

  /** The head is the chain over the log, and the clock is its last stamp. */
  ghost predicate ChainInv(cfg: MachineConfig, d: MachineData) {
    && d.head == Chain(cfg.vmid, d.log)
    && d.commitAt == if d.log == [] then cfg.activeAt else d.log[|d.log| - 1].input.stamp
  }

  /** Stamps lie in the machine's time, in ascending order. */
  ghost predicate ClockInv(cfg: MachineConfig, d: MachineData) {
    && cfg.activeAt <= d.commitAt
    && (forall i | 0 <= i < |d.log| ::
         cfg.activeAt <= d.log[i].input.stamp <= d.commitAt && d.log[i].input.stamp < cfg.expiresAt)
    && (forall i, j | 0 <= i < j < |d.log| :: d.log[i].input.stamp <= d.log[j].input.stamp)
  }

  ghost predicate LogInv(cfg: MachineConfig, d: MachineData) {
    && ChainInv(cfg, d) && ClockInv(cfg, d)
    && (forall i | 0 <= i < |d.log| && d.log[i].input.path.Some? :: d.log[i].input.path.value in cfg.pathnames)
    && CommitActions(d.log)
  }

  /** The inputs that can be committed: a close without a path, or a path action on a path. */
  predicate CommitAction(input: VMInput) {
    if input.path.None? then VerbOf(input.action).Close? else IsPathAction(input.action)
  }

  ghost predicate CommitActions(log: seq<LogEntry>) {
    forall i | 0 <= i < |log| :: CommitAction(log[i].input)
  }

  function Members(rule: Method): seq<string> {
    match rule
    case Endorse(_, members) => members
    case Claim(_, members) => members
    case NoMethod(_) => []
  }

  ghost predicate StoreInv(cfg: MachineConfig, store: seq<StoreEntry>) {
    && |store| == |cfg.programs|
    && (forall i | 0 <= i < |store| ::
          store[i].progId == cfg.programs[i].progId && VotesOk(store[i].votes, Members(cfg.programs[i].rule)))
  }

  /** The members recorded for a program under a label. */
  function VotesFor(store: seq<StoreEntry>, progId: string, tag: string): seq<string> {
    match FindStore(store, progId)
    case None => []
    case Some(i) => Recorded(store[i].votes, tag)
  }

  /**
   A program commit was endorsed by its threshold, and the votes are still stored, or it carried
   the claimed pre-image.
   */
  ghost predicate Endorsed(program: ProgramData, w: WitnessData, voters: seq<string>, store: seq<StoreEntry>) {
    match program.rule
    case Endorse(threshold, members) =>
      && Reaches(|voters|, threshold) && Distinct(voters) && (forall pub | pub in voters :: pub in members)
      && voters <= VotesFor(store, program.progId, Label(w.path, w.action))
    case Claim(lock, members) => ExecClaim(lock, members, w).Done?
    case NoMethod(_) => false
  }

  /** The program a statement's id leads to. */
  predicate IsFound(programs: seq<ProgramData>, progId: string, program: ProgramData) {
    match FindProgram(programs, progId)
    case None => false
    case Some(i) => programs[i] == program
  }

  /** What may commit: an action and path of a due task, or a program acting within its access. */
  ghost predicate Authorized(cfg: MachineConfig, store: seq<StoreEntry>, entry: LogEntry) {
    var input := entry.input;
    match entry.origin
    case ByTask(task) =>
      && task in cfg.schedule
      && input.stamp == cfg.activeAt + task.timer && input.wid == cfg.vmid
      && input.action in TaskActions(task)
      && (if IsPathAction(input.action)
          then input.path.Some? && input.path.value in GetAccessList(task.paths, cfg.pathnames).wlist
          else input.path.None?)
    case ByProgram(program, w, voters) =>
      && IsFound(cfg.programs, w.progId, program)
      && input == WitnessInput(w)
      && CheckAccess(program, w).Done?
      && Endorsed(program, w, voters, store)
  }

  ghost predicate AuthInv(cfg: MachineConfig, d: MachineData) {
    forall i | 0 <= i < |d.log| :: Authorized(cfg, d.state.store, d.log[i])
  }

  ghost predicate IsStart(cfg: MachineConfig, start: seq<PathEntry>) {
    && PathNames(start) == cfg.pathnames
    && forall i | 0 <= i < |start| :: InitPathState(start[i].name, cfg.programs) == Some(start[i].state)
  }

  /** A path some program has access to lock. */
  predicate Lockable(cfg: MachineConfig, path: string) {
    AnyGrants(cfg.programs, "lock", path)
  }

  ghost predicate LockInv(cfg: MachineConfig, d: MachineData) {
    forall i | 0 <= i < |d.log| && d.log[i].input.path.Some? && Lockable(cfg, d.log[i].input.path.value) ::
      !VerbOf(d.log[i].input.action).Lock? && !VerbOf(d.log[i].input.action).Spend?
  }

  ghost predicate Inv(cfg: MachineConfig, start: seq<PathEntry>, d: MachineData) {
    && IsStart(cfg, start)
    && Shape(cfg, d)
    && Told(start, d)
    && PathsInv(cfg, d)
    && DisputeInv(d)
    && RankInv(start, d)
    && LogInv(cfg, d)
    && StoreInv(cfg, d.state.store)
    && AuthInv(cfg, d)
    && LockInv(cfg, d)
  }

  /* ---- A commit keeps it ---- */

  /** How a successful transition moves the state. */
  lemma TransitionMoves(state: CVMState, input: VMInput, next: CVMState) returns (i: nat, pstate: PathState)
    requires Transition(state, input) == Success(next)
    ensures next.store == state.store
    ensures !VerbOf(input.action).Close? ==>
      && IsPathAction(input.action) && input.path.Some?
      && i < |state.paths| && state.paths[i].name == input.path.value
      && RunPathAction(input.action, state.paths[i].state, state.status) == Success(pstate)
      && next.paths == state.paths[i := PathEntry(input.path.value, pstate)]
      && next.status == UpdatePathVMStatus(state.status, pstate)
      && (!state.paths[i].state.Spent? ==> state.paths[i].state.Rank() < pstate.Rank())
      && !pstate.Opened?
    ensures VerbOf(input.action).Close? ==> next == state.(status := ClosedStatus)
  {
    i, pstate := 0, Spent;
    if !VerbOf(input.action).Close? {
      i := FindPath(state.paths, input.path.value).value;
      pstate := RunPathAction(input.action, state.paths[i].state, state.status).value;
    }
  }

  lemma ClosesExtend(log: seq<LogEntry>, entry: LogEntry)
    ensures Closes(log + [entry]) == Closes(log) + if VerbOf(entry.input.action).Close? then 1 else 0
    ensures Closes(log + [entry]) >= Closes(log)
  {
    assert (log + [entry])[..|log|] == log;
  }

  ghost predicate Commits(d: MachineData, input: VMInput, origin: Origin, d': MachineData) {
    && d.output.None?
    && (VerbOf(input.action).Close? ==> input.path.None?)
    && Update(d, input, origin) == Step(Done, d')
  }

  lemma CommitKeepsShape(cfg: MachineConfig, d: MachineData, input: VMInput, origin: Origin, d': MachineData)
    requires Shape(cfg, d) && Commits(d, input, origin, d')
    ensures Shape(cfg, d')
  {
    var i, pstate := TransitionMoves(d.state, input, d'.state);
    if !VerbOf(input.action).Close? {
      assert PathNames(d'.state.paths) == PathNames(d.state.paths);
    }
  }

  /** What each action that can be committed leaves of a path. */
  lemma ActionLeaves(action: string, pstate: PathState, status: VMStatus)
    requires RunPathAction(action, pstate, status).Success? && IsPathAction(action)
    ensures RunPathAction(action, pstate, status).value ==
            if action == "dispute" then Disputed else if action == "lock" then Locked else Spent
    ensures action in {"dispute", "lock", "resolve", "spend"}
  {
  }

  lemma CommitKeepsTold(
    start: seq<PathEntry>, d: MachineData, input: VMInput, origin: Origin, d': MachineData)
    requires Told(start, d) && Commits(d, input, origin, d')
    ensures Told(start, d')
  {
    EndTold(d, input, origin, d');
    var i, pstate := TransitionMoves(d.state, input, d'.state);
    Extends(d, input, origin, d');
    if !VerbOf(input.action).Close? {
      ActionLeaves(input.action, d.state.paths[i].state, d.state.status);
      PathMoveTold(start, d, i, pstate, d');
    } else {
      CloseTold(start, d, d');
    }
  }

  /** The status, and what a commit that ends the machine records. */
  lemma EndTold(d: MachineData, input: VMInput, origin: Origin, d': MachineData)
    requires EndsTold(d) && Commits(d, input, origin, d')
    ensures EndsTold(d')
  {
    var i, pstate := TransitionMoves(d.state, input, d'.state);
    Extends(d, input, origin, d');
    if !VerbOf(input.action).Close? {
      ActionLeaves(input.action, d.state.paths[i].state, d.state.status);
    }
    assert d'.state.status == StatusTold(d'.log);
  }

  lemma CloseTold(start: seq<PathEntry>, d: MachineData, d': MachineData)
    requires PathsTold(start, d) && d'.state.paths == d.state.paths
    requires |d'.log| == |d.log| + 1 && d'.log[..|d.log|] == d.log && d'.log[|d.log|].input.path.None?
    ensures PathsTold(start, d')
  {
  }

  lemma PathMoveTold(start: seq<PathEntry>, d: MachineData, i: nat, pstate: PathState, d': MachineData)
    requires PathsTold(start, d) && i < |d.state.paths|
    requires |d'.log| == |d.log| + 1 && d'.log[..|d.log|] == d.log
    requires d'.log[|d.log|].input.path == Some(d.state.paths[i].name)
    requires d'.state.paths == d.state.paths[i := PathEntry(d.state.paths[i].name, pstate)]
    requires var action := d'.log[|d.log|].input.action;
             pstate == if action == "dispute" then Disputed else if action == "lock" then Locked else Spent
    ensures PathsTold(start, d')
  {
    var paths, names := d.state.paths, PathNames(start);
    assert PathNames(d'.state.paths) == PathNames(paths);
    if Distinct(names) {
      forall k | 0 <= k < |start|
        ensures d'.state.paths[k].state == PathTold(d'.log, start[k].name, start[k].state)
      {
        assert names[k] == start[k].name == PathNames(paths)[k] == paths[k].name && names[i] == paths[i].name;
      }
    }
  }

  lemma CloseKeepsPaths(cfg: MachineConfig, d: MachineData, input: VMInput, origin: Origin, d': MachineData)
    requires PathsInv(cfg, d) && Commits(d, input, origin, d') && VerbOf(input.action).Close?
    ensures PathsInv(cfg, d')
  {
    ClosesExtend(d.log, LogEntry(input, origin));
  }

  lemma DisputeExtend(log: seq<LogEntry>, entry: LogEntry)
    ensures HasDispute(log + [entry]) <==> HasDispute(log) || VerbOf(entry.input.action).Dispute?
  {
    var log' := log + [entry];
    assert log'[|log|] == entry;
    assert forall i | 0 <= i < |log| :: log'[i] == log[i];
  }

  /** One path moved to `pstate`, as a successful path action leaves a record without an output. */
  ghost predicate Moved(d: MachineData, i: nat, pstate: PathState, d': MachineData) {
    && i < |d.state.paths| && d.output.None?
    && d'.state.paths == d.state.paths[i := PathEntry(d.state.paths[i].name, pstate)]
    && d'.state.status == UpdatePathVMStatus(d.state.status, pstate)
    && Closes(d'.log) == Closes(d.log)
    && !pstate.Opened?
  }

  /** A spent path ends the machine: no path was spent before, and the output names this one. */
  lemma SpentKeepsPaths(cfg: MachineConfig, d: MachineData, i: nat, d': MachineData)
    requires PathsInv(cfg, d) && Moved(d, i, Spent, d')
    requires d'.closed && d'.output == Some(d.state.paths[i].name) && d.state.paths[i].name in cfg.pathnames
    ensures PathsInv(cfg, d')
  {
    assert d'.state.paths[i].state == Spent;
    assert forall k | 0 <= k < |d.state.paths| && k != i :: d'.state.paths[k] == d.state.paths[k];
  }

  /** A path locked or disputed leaves the machine going, unless it had been closed. */
  lemma MovedKeepsPaths(cfg: MachineConfig, d: MachineData, i: nat, pstate: PathState, d': MachineData)
    requires PathsInv(cfg, d) && Moved(d, i, pstate, d') && !pstate.Spent?
    requires pstate.Locked? ==> !d.state.paths[i].state.Disputed?
    requires d'.closed == (d.closed || d'.state.status.ClosedStatus?)
        && (d'.output.Some? ==> d'.state.status.ClosedStatus?)
    requires d'.output.Some? ==> d'.output == Some(d.state.paths[i].name) && d.state.paths[i].name in cfg.pathnames
    ensures PathsInv(cfg, d')
  {
    var paths, paths' := d.state.paths, d'.state.paths;
    assert forall k | 0 <= k < |paths| && k != i :: paths'[k] == paths[k];
    assert paths'[i].state == pstate;
    if pstate.Locked? && SomePathIs(paths, Disputed) {
      var k :| 0 <= k < |paths| && paths[k].state == Disputed;
      assert paths'[k].state.Disputed?;
    }
  }

  lemma PathActionKeepsPaths(cfg: MachineConfig, d: MachineData, input: VMInput, origin: Origin, d': MachineData)
    requires Shape(cfg, d) && PathsInv(cfg, d) && Commits(d, input, origin, d') && !VerbOf(input.action).Close?
    ensures PathsInv(cfg, d')
  {
    var i, pstate := TransitionMoves(d.state, input, d'.state);
    ClosesExtend(d.log, LogEntry(input, origin));
    assert input.path.value == PathNames(d.state.paths)[i] && input.path.value in cfg.pathnames;
    if pstate.Spent? {
      SpentKeepsPaths(cfg, d, i, d');
    } else {
      MovedKeepsPaths(cfg, d, i, pstate, d');
    }
  }

  lemma CommitKeepsDispute(d: MachineData, input: VMInput, origin: Origin, d': MachineData)
    requires DisputeInv(d) && Commits(d, input, origin, d')
    ensures DisputeInv(d')
  {
    var entry := LogEntry(input, origin);
    ClosesExtend(d.log, entry);
    DisputeExtend(d.log, entry);
    if !VerbOf(input.action).Close? {
      StatusAfter(d, input, origin, d');
    }
  }

  lemma StatusAfter(d: MachineData, input: VMInput, origin: Origin, d': MachineData)
    requires Commits(d, input, origin, d') && !VerbOf(input.action).Close?
    ensures d'.output.None? ==>
              if VerbOf(input.action).Dispute?
              then d'.state.status.DisputedStatus?
              else d'.state.status == d.state.status
  {
    var i, pstate := TransitionMoves(d.state, input, d'.state);
  }

  lemma CommitKeepsRank(
    start: seq<PathEntry>, cfg: MachineConfig, d: MachineData, input: VMInput, origin: Origin, d': MachineData)
    requires PathsInv(cfg, d) && RankInv(start, d) && Commits(d, input, origin, d')
    ensures RankInv(start, d')
  {
    var i, pstate := TransitionMoves(d.state, input, d'.state);
    ClosesExtend(d.log, LogEntry(input, origin));
    if !VerbOf(input.action).Close? {
      SumRankUpdate(d.state.paths, i, PathEntry(input.path.value, pstate));
    }
  }

  /** The record after a commit, as far as its history goes. */
  lemma Extends(d: MachineData, input: VMInput, origin: Origin, d': MachineData)
    requires Commits(d, input, origin, d')
    ensures d'.log == d.log + [LogEntry(input, origin)] && d'.log[..|d.log|] == d.log && d'.log[|d.log|].input == input
    ensures d'.commitAt == input.stamp && d.commitAt <= input.stamp < d.expiresAt
    ensures d'.head == Commit(input.wid, d.head, "null", d.step + 1, input.stamp)
  {
  }

  lemma CommitKeepsClock(cfg: MachineConfig, d: MachineData, input: VMInput, origin: Origin, d': MachineData)
    requires ClockInv(cfg, d) && d.expiresAt == cfg.expiresAt && Commits(d, input, origin, d')
    ensures ClockInv(cfg, d')
  {
    Extends(d, input, origin, d');
  }

  lemma CommitIsAction(cfg: MachineConfig, d: MachineData, input: VMInput, origin: Origin, d': MachineData)
    requires Shape(cfg, d) && Commits(d, input, origin, d')
    ensures CommitAction(input) && (input.path.Some? ==> input.path.value in cfg.pathnames)
  {
    var i, pstate := TransitionMoves(d.state, input, d'.state);
    if input.path.Some? {
      assert input.path.value == PathNames(d.state.paths)[i];
    }
  }

  lemma CommitKeepsLog(cfg: MachineConfig, d: MachineData, input: VMInput, origin: Origin, d': MachineData)
    requires Shape(cfg, d) && LogInv(cfg, d) && d.step == |d.log| && Commits(d, input, origin, d')
    ensures LogInv(cfg, d')
  {
    CommitIsAction(cfg, d, input, origin, d');
    CommitKeepsClock(cfg, d, input, origin, d');
    Extends(d, input, origin, d');
  }

  lemma CommitKeepsAuth(cfg: MachineConfig, d: MachineData, input: VMInput, origin: Origin, d': MachineData)
    requires AuthInv(cfg, d) && StoreInv(cfg, d.state.store) && Commits(d, input, origin, d')
    requires Authorized(cfg, d.state.store, LogEntry(input, origin))
    ensures AuthInv(cfg, d') && StoreInv(cfg, d'.state.store)
  {
    var i, pstate := TransitionMoves(d.state, input, d'.state);
  }

  lemma LockableStartsLocked(cfg: MachineConfig, start: seq<PathEntry>, i: nat)
    requires IsStart(cfg, start) && i < |start| && Lockable(cfg, start[i].name)
    ensures start[i].state.Locked?
  {
    var p :| p in cfg.programs && Grants(p, "lock", start[i].name);
    assert "lock" <= "unlock"[2..];
    RegexWidens("unlock", "lock", p.actions);
    assert Grants(p, "unlock", start[i].name);
  }

  /** A path that started locked can be disputed and resolved on, but no longer locked or spent. */
  lemma LockedRefuses(action: string, pstate: PathState, status: VMStatus)
    requires pstate.Locked? || pstate.Disputed?
    requires RunPathAction(action, pstate, status).Success?
    ensures !VerbOf(action).Lock? && !VerbOf(action).Spend?
  {
  }

  lemma LockablePathHeld(cfg: MachineConfig, start: seq<PathEntry>, d: MachineData, i: nat)
    requires IsStart(cfg, start) && RankInv(start, d) && PathsInv(cfg, d) && d.output.None?
    requires PathNames(d.state.paths) == cfg.pathnames && i < |d.state.paths| && Lockable(cfg, d.state.paths[i].name)
    ensures d.state.paths[i].state.Locked? || d.state.paths[i].state.Disputed?
  {
    assert start[i].name == PathNames(start)[i] == PathNames(d.state.paths)[i];
    LockableStartsLocked(cfg, start, i);
  }

  lemma CommitKeepsLock(
    cfg: MachineConfig, start: seq<PathEntry>, d: MachineData, input: VMInput, origin: Origin, d': MachineData)
    requires IsStart(cfg, start) && RankInv(start, d) && LockInv(cfg, d) && PathsInv(cfg, d) && Shape(cfg, d)
    requires Commits(d, input, origin, d')
    ensures LockInv(cfg, d')
  {
    var i, pstate := TransitionMoves(d.state, input, d'.state);
    Extends(d, input, origin, d');
    if !VerbOf(input.action).Close? && Lockable(cfg, input.path.value) {
      LockablePathHeld(cfg, start, d, i);
      LockedRefuses(input.action, d.state.paths[i].state, d.state.status);
    }
  }

  lemma {:induction false} CommitKeeps(
    cfg: MachineConfig, start: seq<PathEntry>, d: MachineData, input: VMInput, origin: Origin, d': MachineData)
    requires Inv(cfg, start, d) && Commits(d, input, origin, d')
    requires Authorized(cfg, d.state.store, LogEntry(input, origin))
    ensures Inv(cfg, start, d')
  {
    CommitKeepsShape(cfg, d, input, origin, d');
    CommitKeepsTold(start, d, input, origin, d');
    if VerbOf(input.action).Close? {
      CloseKeepsPaths(cfg, d, input, origin, d');
    } else {
      PathActionKeepsPaths(cfg, d, input, origin, d');
    }
    CommitKeepsDispute(d, input, origin, d');
    CommitKeepsRank(start, cfg, d, input, origin, d');
    CommitKeepsLog(cfg, d, input, origin, d');
    CommitKeepsAuth(cfg, d, input, origin, d');
    CommitKeepsLock(cfg, start, d, input, origin, d');
  }
}
