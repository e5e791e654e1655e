/**
 The invariant holds in every reachable machine: it is carried through tasks, schedules,
 programs, evaluations and whole runs, and its consequences are drawn.
 */
module Reachable {
  import opened Wrappers
  import opened Text
  import opened Machine
  import opened Votes
  import opened Invariants

  /* ---- Tasks ---- */

  ghost predicate FromTask(cfg: MachineConfig, task: Task, action: string, plist: seq<string>) {
    && task in cfg.schedule
    && action in TaskActions(task)
    && forall p | p in plist :: p in GetAccessList(task.paths, cfg.pathnames).wlist
  }

  /** So does an update, committed or refused. */
  lemma UpdateKeeps(cfg: MachineConfig, start: seq<PathEntry>, d: MachineData, input: VMInput, origin: Origin)
    requires Inv(cfg, start, d) && d.output.None? && (VerbOf(input.action).Close? ==> input.path.None?)
    requires Authorized(cfg, d.state.store, LogEntry(input, origin))
    ensures Inv(cfg, start, Update(d, input, origin).data)
    ensures !Update(d, input, origin).outcome.Done? ==> Update(d, input, origin).data == d
  {
    var next := Update(d, input, origin);
    if next.outcome.Done? {
      assert Commits(d, input, origin, next.data);
      CommitKeeps(cfg, start, d, input, origin, next.data);
    }
  }

  lemma {:induction false} RunPathsKeeps(
    cfg: MachineConfig, start: seq<PathEntry>, d: MachineData, task: Task, action: string, plist: seq<string>)
    requires Inv(cfg, start, d) && d.output.None? && IsPathAction(action) && FromTask(cfg, task, action, plist)
    ensures var flow := RunPaths(d, task, action, plist);
            && Inv(cfg, start, flow.data)
            && (flow.stop <==> flow.data.output.Some?)
    decreases |plist|
  {
    if plist != [] {
      var input := TaskInput(d, task, action, Some(plist[0]));
      var next := Update(d, input, ByTask(task));
      UpdateKeeps(cfg, start, d, input, ByTask(task));
      if next.data.output.None? {
        RunPathsKeeps(cfg, start, next.data, task, action, plist[1..]);
      }
    }
  }

  lemma {:induction false} RunActionsKeeps(
    cfg: MachineConfig, start: seq<PathEntry>, d: MachineData, task: Task, alist: seq<string>, plist: seq<string>)
    requires Inv(cfg, start, d) && d.output.None?
    requires forall a | a in alist :: FromTask(cfg, task, a, plist)
    ensures var d' := RunActions(d, task, alist, plist);
            Inv(cfg, start, d')
    decreases |alist|
  {
    if alist != [] {
      var action := alist[0];
      assert FromTask(cfg, task, action, plist);
      if IsPathAction(action) {
        RunPathsKeeps(cfg, start, d, task, action, plist);
        var flow := RunPaths(d, task, action, plist);
        if !flow.stop {
          RunActionsKeeps(cfg, start, flow.data, task, alist[1..], plist);
        }
      } else {
        var input := TaskInput(d, task, action, None);
        var next := Update(d, input, ByTask(task));
        UpdateKeeps(cfg, start, d, input, ByTask(task));
        RunActionsKeeps(cfg, start, next.data, task, alist[1..], plist);
      }
    }
  }

  lemma RunTaskKeeps(cfg: MachineConfig, start: seq<PathEntry>, d: MachineData, task: Task)
    requires Inv(cfg, start, d) && d.output.None? && task in cfg.schedule
    ensures Inv(cfg, start, RunTask(d, task))
  {
    RunActionsKeeps(cfg, start, d, task, TaskActions(task), TaskPaths(task, d.state.paths));
  }

  lemma ShiftKeeps(cfg: MachineConfig, start: seq<PathEntry>, d: MachineData)
    requires Inv(cfg, start, d)
    ensures Inv(cfg, start, Shift(d))
  {
    var d' := Shift(d);
    assert d' == d.(tasks := d'.tasks);
    assert Shape(cfg, d') && RankInv(start, d');
    assert PathsInv(cfg, d') && DisputeInv(d');
    assert LogInv(cfg, d') && AuthInv(cfg, d') && LockInv(cfg, d');
  }

  lemma {:induction false} RunTasksKeeps(cfg: MachineConfig, start: seq<PathEntry>, d: MachineData, due: seq<Task>)
    requires Inv(cfg, start, d) && d.output.None? && forall task | task in due :: task in cfg.schedule
    ensures Inv(cfg, start, RunTasks(d, due))
    decreases |due|
  {
    if due != [] {
      RunTaskKeeps(cfg, start, d, due[0]);
      ShiftKeeps(cfg, start, RunTask(d, due[0]));
      var next := Shift(RunTask(d, due[0]));
      if next.output.None? {
        RunTasksKeeps(cfg, start, next, due[1..]);
      }
    }
  }

  lemma RunScheduleKeeps(cfg: MachineConfig, start: seq<PathEntry>, d: MachineData, stopAt: int)
    requires Inv(cfg, start, d) && d.output.None?
    ensures Inv(cfg, start, RunSchedule(d, stopAt))
  {
    RunTasksKeeps(cfg, start, d, GetTasks(d, stopAt));
  }

  /* ---- Programs ---- */

  lemma FindStoreUnique(store: seq<StoreEntry>, progId: string, j: nat)
    requires j < |store| && store[j].progId == progId
    requires forall i | 0 <= i < j :: store[i].progId != progId
    ensures FindStore(store, progId) == Some(j)
  {}

  ghost predicate Stocked(cfg: MachineConfig, d: MachineData) {
    d.programs == cfg.programs && StoreInv(cfg, d.state.store)
  }

  /** Programs and stores are found at the same index. */
  lemma LoadedTogether(cfg: MachineConfig, d: MachineData, w: WitnessData)
    requires Stocked(cfg, d)
    requires LoadProgram(d.programs, d.state.store, w).Success?
    ensures var loaded := LoadProgram(d.programs, d.state.store, w).value;
            && loaded.program == loaded.store
            && d.programs[loaded.program].progId == w.progId
            && CheckAccess(d.programs[loaded.program], w).Done?
            && FindStore(d.state.store, w.progId) == Some(loaded.store)
  {
    var loaded := LoadProgram(d.programs, d.state.store, w).value;
    FindStoreUnique(d.state.store, w.progId, loaded.program);
  }

  lemma EndorsedGrows(
    cfg: MachineConfig, store: seq<StoreEntry>, i: nat, votes: seq<Vote>, program: ProgramData, w: WitnessData,
    voters: seq<string>)
    requires StoreInv(cfg, store) && i < |store| && IsFound(cfg.programs, w.progId, program)
    requires StoreInv(cfg, store[i := store[i].(votes := votes)])
    requires Endorsed(program, w, voters, store) && Grows(store[i].votes, votes)
    ensures Endorsed(program, w, voters, store[i := store[i].(votes := votes)])
  {
    if program.rule.Endorse? {
      var store' := store[i := store[i].(votes := votes)];
      var tag := Label(w.path, w.action);
      var j := FindProgram(cfg.programs, w.progId).value;
      FindStoreUnique(store, w.progId, j);
      FindStoreUnique(store', w.progId, j);
      assert Recorded(store[j].votes, tag) <= Recorded(store'[j].votes, tag);
    }
  }

  /** Replacing one store by a larger one keeps everything already authorized. */
  lemma GrowKeeps(cfg: MachineConfig, start: seq<PathEntry>, d: MachineData, i: nat, votes: seq<Vote>)
    requires Inv(cfg, start, d) && i < |d.state.store|
    requires VotesOk(votes, Members(cfg.programs[i].rule)) && Grows(d.state.store[i].votes, votes)
    ensures Inv(cfg, start, WithVotes(d, i, votes))
  {
    GrowKeepsAuth(cfg, d.log, d.state.store, i, votes);
    GrowIsStore(cfg, start, d, WithVotes(d, i, votes).state.store);
  }

  /** The rest of the invariant does not look at the stores. */
  lemma GrowIsStore(cfg: MachineConfig, start: seq<PathEntry>, d: MachineData, store: seq<StoreEntry>)
    requires Inv(cfg, start, d) && StoreInv(cfg, store)
    requires forall k | 0 <= k < |d.log| :: Authorized(cfg, store, d.log[k])
    ensures Inv(cfg, start, d.(state := d.state.(store := store)))
  {
    var d' := d.(state := d.state.(store := store));
    assert Shape(cfg, d') && RankInv(start, d');
    assert PathsInv(cfg, d') && DisputeInv(d');
    assert LogInv(cfg, d') && LockInv(cfg, d');
  }

  lemma GrowKeepsAuth(cfg: MachineConfig, log: seq<LogEntry>, store: seq<StoreEntry>, i: nat, votes: seq<Vote>)
    requires StoreInv(cfg, store) && i < |store|
    requires VotesOk(votes, Members(cfg.programs[i].rule)) && Grows(store[i].votes, votes)
    requires forall k | 0 <= k < |log| :: Authorized(cfg, store, log[k])
    ensures StoreInv(cfg, store[i := store[i].(votes := votes)])
    ensures forall k | 0 <= k < |log| :: Authorized(cfg, store[i := store[i].(votes := votes)], log[k])
  {
    var store' := store[i := store[i].(votes := votes)];
    assert StoreInv(cfg, store');
    forall k | 0 <= k < |log|
      ensures Authorized(cfg, store', log[k])
    {
      GrowKeepsEntry(cfg, log[k], store, i, votes);
    }
  }

  lemma GrowKeepsEntry(cfg: MachineConfig, entry: LogEntry, store: seq<StoreEntry>, i: nat, votes: seq<Vote>)
    requires StoreInv(cfg, store) && i < |store| && Authorized(cfg, store, entry)
    requires StoreInv(cfg, store[i := store[i].(votes := votes)]) && Grows(store[i].votes, votes)
    ensures Authorized(cfg, store[i := store[i].(votes := votes)], entry)
  {
    if entry.origin.ByProgram? {
      EndorsedGrows(cfg, store, i, votes, entry.origin.program, entry.origin.statement, entry.origin.voters);
    }
  }

  /** Either method keeps the votes in order, never throws, and accepts only when endorsed. */
  lemma ExecMethodKeeps(rule: Method, votes: seq<Vote>, w: WitnessData)
    requires VotesOk(votes, Members(rule)) && CheckMethod(rule).Done?
    ensures var exec := ExecMethod(rule, votes, w);
            && VotesOk(exec.votes, Members(rule)) && Grows(votes, exec.votes)
            && !exec.outcome.Throw?
            && (exec.accepted ==>
                  match rule
                  case Endorse(threshold, _) => Reaches(|Recorded(exec.votes, Label(w.path, w.action))|, threshold)
                  case Claim(lock, members) => ExecClaim(lock, members, w).Done?
                  case NoMethod(_) => false)
  {
    if rule.Endorse? {
      ExecEndorseKeeps(votes, Label(w.path, w.action), w.sigs, rule.threshold, rule.members);
    }
  }

  lemma VotedEndorses(cfg: MachineConfig, store: seq<StoreEntry>, i: nat, votes: seq<Vote>, w: WitnessData)
    requires StoreInv(cfg, store) && i < |store|
    requires FindProgram(cfg.programs, w.progId) == Some(i)
    requires VotesOk(votes, Members(cfg.programs[i].rule))
    requires match cfg.programs[i].rule
             case Endorse(threshold, _) => Reaches(|Recorded(votes, Label(w.path, w.action))|, threshold)
             case Claim(lock, members) => ExecClaim(lock, members, w).Done?
             case NoMethod(_) => false
    ensures Endorsed(cfg.programs[i], w, Voters(cfg.programs[i].rule, votes, w), store[i := store[i].(votes := votes)])
  {
    FindStoreUnique(store[i := store[i].(votes := votes)], w.progId, i);
  }

  lemma ExecFacts(cfg: MachineConfig, store: seq<StoreEntry>, i: nat, w: WitnessData)
    requires StoreInv(cfg, store) && i < |store|
    requires FindProgram(cfg.programs, w.progId) == Some(i) && CheckMethod(cfg.programs[i].rule).Done?
    ensures var rule := cfg.programs[i].rule;
            var exec := ExecMethod(rule, store[i].votes, w);
            && VotesOk(exec.votes, Members(rule)) && Grows(store[i].votes, exec.votes)
            && !exec.outcome.Throw?
            && (exec.accepted
               ==> Endorsed(cfg.programs[i], w, Voters(rule, exec.votes, w),
                   store[i := store[i].(votes := exec.votes)]))
  {
    var rule := cfg.programs[i].rule;
    assert VotesOk(store[i].votes, Members(rule));
    ExecMethodKeeps(rule, store[i].votes, w);
    var exec := ExecMethod(rule, store[i].votes, w);
    if exec.accepted {
      VotedEndorses(cfg, store, i, exec.votes, w);
    }
  }

  /** What a loaded program's method makes of its own store. */
  lemma LoadedExec(cfg: MachineConfig, d: MachineData, w: WitnessData) returns (i: nat)
    requires Stocked(cfg, d) && LoadProgram(d.programs, d.state.store, w).Success?
    ensures LoadProgram(d.programs, d.state.store, w) == Success(Loaded(i, i)) && i < |d.state.store|
    ensures IsFound(cfg.programs, w.progId, d.programs[i]) && CheckAccess(d.programs[i], w).Done?
    ensures var rule := d.programs[i].rule;
            var exec := ExecMethod(rule, d.state.store[i].votes, w);
            && VotesOk(exec.votes, Members(rule)) && Grows(d.state.store[i].votes, exec.votes)
            && !exec.outcome.Throw?
            && (exec.accepted
               ==> Endorsed(d.programs[i], w, Voters(rule, exec.votes, w), WithVotes(d, i, exec.votes).state.store))
  {
    LoadedTogether(cfg, d, w);
    i := LoadProgram(d.programs, d.state.store, w).value.program;
    ExecFacts(cfg, d.state.store, i, w);
  }

  /** What executing a loaded program's method establishes. */
  lemma ExecKeeps(cfg: MachineConfig, start: seq<PathEntry>, d: MachineData, w: WitnessData) returns (i: nat)
    requires Inv(cfg, start, d) && LoadProgram(d.programs, d.state.store, w).Success?
    ensures LoadProgram(d.programs, d.state.store, w) == Success(Loaded(i, i))
    ensures IsFound(cfg.programs, w.progId, d.programs[i]) && CheckAccess(d.programs[i], w).Done?
    ensures var exec := ExecMethod(d.programs[i].rule, d.state.store[i].votes, w);
            && Inv(cfg, start, WithVotes(d, i, exec.votes))
            && !exec.outcome.Throw?
            && (exec.accepted
               ==> Endorsed(d.programs[i], w, Voters(d.programs[i].rule, exec.votes, w),
                   WithVotes(d, i, exec.votes).state.store))
  {
    i := LoadedExec(cfg, d, w);
    GrowKeeps(cfg, start, d, i, ExecMethod(d.programs[i].rule, d.state.store[i].votes, w).votes);
  }

  lemma AcceptedKeeps(
    cfg: MachineConfig, start: seq<PathEntry>, d: MachineData, program: ProgramData, w: WitnessData,
    voters: seq<string>)
    requires Inv(cfg, start, d) && d.output.None?
    requires IsFound(cfg.programs, w.progId, program) && CheckAccess(program, w).Done?
    requires Endorsed(program, w, voters, d.state.store)
    ensures var next := Update(d, WitnessInput(w), ByProgram(program, w, voters));
            Inv(cfg, start, next.data)
  {
    var input, origin := WitnessInput(w), ByProgram(program, w, voters);
    UpdateKeeps(cfg, start, d, input, origin);
  }

  lemma RunProgramKeeps(cfg: MachineConfig, start: seq<PathEntry>, d: MachineData, w: WitnessData)
    requires Inv(cfg, start, d) && d.output.None?
    ensures Inv(cfg, start, RunProgram(d, w).data)
  {
    if LoadProgram(d.programs, d.state.store, w).Success? {
      var i := ExecKeeps(cfg, start, d, w);
      var exec := ExecMethod(d.programs[i].rule, d.state.store[i].votes, w);
      if exec.outcome.Done? && exec.accepted {
        AcceptedKeeps(cfg, start, WithVotes(d, i, exec.votes), d.programs[i], w,
          Voters(d.programs[i].rule, exec.votes, w));
      }
    }
  }

  /* ---- Evaluations and runs ---- */

  lemma {:induction false} EvalStackKeeps(
    cfg: MachineConfig, start: seq<PathEntry>, d: MachineData, stack: seq<WitnessData>)
    requires Inv(cfg, start, d) && d.output.None?
    ensures Inv(cfg, start, EvalStack(d, stack).data)
    decreases |stack|
  {
    if stack != [] {
      RunScheduleKeeps(cfg, start, d, stack[0].stamp);
      var timed := RunSchedule(d, stack[0].stamp);
      if !timed.closed {
        RunProgramKeeps(cfg, start, timed, stack[0]);
        var next := RunProgram(timed, stack[0]);
        if next.outcome.Done? && !next.data.closed {
          EvalStackKeeps(cfg, start, next.data, stack[1..]);
        }
      }
    }
  }

  lemma ErrorFree(cfg: MachineConfig, start: seq<PathEntry>, d: MachineData, error: Option<Fault>)
    requires Inv(cfg, start, d)
    ensures Inv(cfg, start, d.(error := error))
  {}

  lemma EvalWitnessKeeps(cfg: MachineConfig, start: seq<PathEntry>, d: MachineData, ws: seq<WitnessData>)
    requires Inv(cfg, start, d)
    ensures Inv(cfg, start, EvalWitness(d, ws).data)
  {
    if d.output.None? {
      ErrorFree(cfg, start, d, None);
      EvalStackKeeps(cfg, start, d.(error := None), GetStatements(ws));
      var last := EvalStack(d.(error := None), GetStatements(ws));
      EvalWitnessLeaves(d, ws);
      ErrorFree(cfg, start, last.data, EvalWitness(d, ws).data.error);
    }
  }

  /** An evaluation leaves the caller's record, or what its statements left but for the error. */
  lemma EvalWitnessLeaves(d: MachineData, ws: seq<WitnessData>)
    ensures var result, last := EvalWitness(d, ws).data, EvalStack(d.(error := None), GetStatements(ws));
            result == d || result == last.data.(error := result.error)
  {
  }

  lemma ApplyKeeps(cfg: MachineConfig, start: seq<PathEntry>, d: MachineData, event: Event)
    requires Inv(cfg, start, d)
    ensures Inv(cfg, start, Apply(d, event).data)
  {
    match event {
      case Statements(ws) => EvalWitnessKeeps(cfg, start, d, ws);
      case Poll(t) =>
        if d.output.None? {
          RunScheduleKeeps(cfg, start, d, t);
        }
    }
  }

  lemma {:induction false} RunKeeps(cfg: MachineConfig, start: seq<PathEntry>, d: MachineData, events: seq<Event>)
    requires Inv(cfg, start, d)
    ensures Inv(cfg, start, Run(d, events))
    decreases |events|
  {
    if events != [] {
      ApplyKeeps(cfg, start, d, events[0]);
      RunKeeps(cfg, start, Apply(d, events[0]).data, events[1..]);
    }
  }

  lemma InitTasksMembers(schedule: seq<Task>)
    ensures forall task :: task in InitTasks(schedule) <==> task in schedule
  {
    forall task
      ensures task in InitTasks(schedule) <==> task in schedule
    {
      assert task in InitTasks(schedule) <==> task in multiset(InitTasks(schedule));
      assert task in schedule <==> task in multiset(schedule);
    }
  }

  lemma InitHolds(cfg: MachineConfig)
    requires InitVM(cfg).Some?
    ensures Inv(cfg, InitVM(cfg).value.state.paths, InitVM(cfg).value)
  {
    var d := InitVM(cfg).value;
    InitTasksMembers(cfg.schedule);
    forall i | 0 <= i < |d.state.paths|
      ensures !d.state.paths[i].state.Spent? && !d.state.paths[i].state.Disputed?
      ensures InitPathState(d.state.paths[i].name, cfg.programs) == Some(d.state.paths[i].state)
    {
      assert cfg.pathnames[i] == PathNames(d.state.paths)[i];
      assert InitPathState(cfg.pathnames[i], cfg.programs) == Some(d.state.paths[i].state);
    }
  }

  /** Every machine reached from an initialized one satisfies the invariant. */
  lemma {:induction false} Reached(cfg: MachineConfig, events: seq<Event>) returns (start: seq<PathEntry>)
    requires InitVM(cfg).Some?
    ensures start == InitVM(cfg).value.state.paths
    ensures Inv(cfg, start, Run(InitVM(cfg).value, events))
  {
    start := InitVM(cfg).value.state.paths;
    InitHolds(cfg);
    RunKeeps(cfg, start, InitVM(cfg).value, events);
  }
}
