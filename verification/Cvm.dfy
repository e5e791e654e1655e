/**
 The contract machine as it runs: a revived record that its operations update in place, and
 the entry points that revive, run and serialize it. Every method is proved to do what the
 reference machine says.
 */
module Cvm {
  import opened Wrappers
  import opened Text
  import opened Machine
  import Votes
  import Audit

  /* ---- One iteration of each loop over a task ---- */

  lemma RunPathsAt(d: MachineData, task: Task, action: string, plist: seq<string>, j: nat)
    requires j < |plist|
    ensures var next := Update(d, TaskInput(d, task, action, Some(plist[j])), ByTask(task));
            RunPaths(d, task, action, plist[j..]) ==
            if next.outcome.Done? && next.data.output.Some? then Flow(next.data, true)
            else RunPaths(next.data, task, action, plist[j + 1..])
  {
    assert plist[j..][0] == plist[j] && plist[j..][1..] == plist[j + 1..];
  }

  lemma RunActionsAt(d: MachineData, task: Task, alist: seq<string>, plist: seq<string>, i: nat)
    requires i < |alist|
    ensures IsPathAction(alist[i]) ==>
              var flow := RunPaths(d, task, alist[i], plist);
              RunActions(d, task, alist[i..], plist) ==
                if flow.stop
                then flow.data
                else RunActions(flow.data, task, alist[i + 1..], plist)
    ensures !IsPathAction(alist[i]) ==>
              RunActions(d, task, alist[i..], plist) ==
              RunActions(Update(d, TaskInput(d, task, alist[i], None), ByTask(task)).data, task, alist[i + 1..], plist)
  {
    assert alist[i..][0] == alist[i] && alist[i..][1..] == alist[i + 1..];
  }

  class CVMData {
    const activeAt: int
    const engine: string
    const expiresAt: int
    const pathnames: seq<string>
    const programs: seq<ProgramData>
    const updatedAt: int
    const vmid: string

    var closed: bool
    var closedAt: Option<int>
    var commitAt: int
    var error: Option<Fault>
    var head: Head
    var output: Option<string>
    var step: nat
    var tasks: seq<Task>

    var paths: seq<PathEntry>
    var status: VMStatus
    var store: seq<StoreEntry>

    /** The history variable of the model. */
    var log: seq<LogEntry>

    /** The record this machine serializes to. */
    function Serialize(): MachineData
      reads this
    {
      MachineData(activeAt, closed, closedAt, commitAt, engine, error, expiresAt, head, output, pathnames,
                  programs, CVMState(paths, status, store), step, tasks, updatedAt, vmid, log)
    }

    constructor Revive(d: MachineData)
      ensures Serialize() == d
    {
      activeAt, engine, expiresAt, pathnames := d.activeAt, d.engine, d.expiresAt, d.pathnames;
      programs, updatedAt, vmid := d.programs, d.updatedAt, d.vmid;
      closed, closedAt, commitAt, error := d.closed, d.closedAt, d.commitAt, d.error;
      head, output, step, tasks := d.head, d.output, d.step, d.tasks;
      paths, status, store := d.state.paths, d.state.status, d.state.store;
      log := d.log;
    }

    /* ---- state.ts ---- */

    /** The switch over the action: moves one path and the status, or refuses and changes neither. */
    method ApplyAction(input: VMInput) returns (outcome: Outcome)
      modifies this`paths, this`status
      ensures match Transition(CVMState(old(paths), old(status), store), input)
              case Success(state) =>
                  outcome.Done? && paths == state.paths && status == state.status && store == state.store
              case Failure(refusal) =>
                  outcome == refusal && !refusal.Done? && paths == old(paths) && status == old(status)
    {
      if VerbOf(input.action).Close? {
        status := ClosedStatus;
      } else if IsPathAction(input.action) {
        if input.path.None? {
          return Throw(PathIsNull);
        }
        var idx := FindPath(paths, input.path.value);
        if idx.None? {
          return Throw(PathMissing);
        }
        var ret := RunPathAction(input.action, paths[idx.value].state, status);
        if ret.Failure? {
          return VMError(ret.error);
        }
        paths := paths[idx.value := PathEntry(input.path.value, ret.value)];
        status := UpdatePathVMStatus(status, ret.value);
      } else {
        return Throw(UnrecognizedAction);
      }
      return Done;
    }

    method UpdateVMState(input: VMInput, origin: Origin) returns (outcome: Outcome)
      modifies this
      ensures Step(outcome, Serialize()) == Update(old(Serialize()), input, origin)
    {
      outcome := CheckUpdateStamp(Serialize(), input.stamp);
      if !outcome.Done? {
        return;
      }
      outcome := ApplyAction(input);
      if !outcome.Done? {
        return;
      }
      RecordCommit(input, origin);
    }

    /** The bookkeeping of a commit. */
    method RecordCommit(input: VMInput, origin: Origin)
      modifies this`step, this`commitAt, this`head, this`log, this`closed, this`closedAt, this`output
      ensures Serialize() == Committed(old(Serialize()), input, origin, CVMState(paths, status, store))
    {
      step := step + 1;
      commitAt := input.stamp;
      head := Commit(input.wid, head, output.GetOr("null"), step, input.stamp);
      log := log + [LogEntry(input, origin)];
      if status.ClosedStatus? || status.SpentStatus? {
        closed := true;
        closedAt := Some(input.stamp);
        output := input.path;
      }
    }

    /* ---- schedule.ts ---- */

    /** The inner loop of a task; `stop` is its early return. */
    method RunTaskPaths(task: Task, action: string, plist: seq<string>) returns (stop: bool)
      modifies this
      ensures Flow(Serialize(), stop) == RunPaths(old(Serialize()), task, action, plist)
    {
      ghost var d := Serialize();
      var j := 0;
      while j < |plist|
        invariant 0 <= j <= |plist|
        invariant RunPaths(Serialize(), task, action, plist[j..]) == RunPaths(d, task, action, plist)
      {
        RunPathsAt(Serialize(), task, action, plist, j);
        var input := VMInput(action, Some(plist[j]), activeAt + task.timer, vmid);
        assert input == TaskInput(Serialize(), task, action, Some(plist[j]));
        var outcome := UpdateVMState(input, ByTask(task));
        if outcome.Done? && output.Some? {
          return true;
        }
        j := j + 1;
      }
      return false;
    }

    method RunTask(task: Task)
      modifies this
      ensures Serialize() == Machine.RunTask(old(Serialize()), task)
    {
      ghost var d := Serialize();
      var alist := TaskActions(task);
      var plist := TaskPaths(task, paths);
      var i := 0;
      while i < |alist|
        invariant 0 <= i <= |alist|
        invariant RunActions(Serialize(), task, alist[i..], plist) == Machine.RunTask(d, task)
      {
        var action := alist[i];
        ghost var before := Serialize();
        RunActionsAt(before, task, alist, plist, i);
        if IsPathAction(action) {
          var stop := RunTaskPaths(task, action, plist);
          assert Flow(Serialize(), stop) == RunPaths(before, task, action, plist);
          if stop {
            return;
          }
        } else {
          var input := VMInput(action, None, activeAt + task.timer, vmid);
          assert input == TaskInput(before, task, action, None);
          var outcome := UpdateVMState(input, ByTask(task));
          assert Step(outcome, Serialize()) == Update(before, input, ByTask(task));
        }
        i := i + 1;
      }
    }

    method RunSchedule(stopAt: int)
      modifies this
      ensures Serialize() == Machine.RunSchedule(old(Serialize()), stopAt)
    {
      ghost var d := Serialize();
      var due := GetTasks(Serialize(), stopAt);
      var i := 0;
      while i < |due|
        invariant 0 <= i <= |due|
        invariant RunTasks(Serialize(), due[i..]) == Machine.RunSchedule(d, stopAt)
      {
        assert due[i..][1..] == due[i + 1..];
        ghost var before := Serialize();
        RunTask(due[i]);
        if tasks != [] {
          tasks := tasks[1..];
        }
        assert Serialize() == Shift(Machine.RunTask(before, due[i]));
        if output.Some? {
          return;
        }
        i := i + 1;
      }
    }

    /* ---- methods/endorse.ts ---- */

    /** Adds a vote under a label; the new count, or the refusal of a repeated vote. */
    method RecordEntry(j: nat, tag: string, pubkey: string) returns (count: Result<nat, Fault>)
      requires j < |store|
      modifies this`store
      ensures match WithVote(old(store[j].votes), tag, pubkey)
              case None => count == Failure(RecordExists(tag, pubkey)) && store == old(store)
              case Some(next) =>
                && store == old(store)[j := old(store[j]).(votes := next)]
                && count == Success(|Recorded(next, tag)|)
    {
      var entries := store[j].votes;
      var idx := FindVote(entries, tag);
      var arr: seq<string>;
      if idx.None? {
        arr := [pubkey];
        Votes.RecordedAfterAppend(entries, tag, pubkey, tag);
        entries := entries + [Vote(tag, arr)];
      } else {
        arr := entries[idx.value].pubkeys;
        if pubkey in arr {
          return Failure(RecordExists(tag, pubkey));
        }
        arr := arr + [pubkey];
        Votes.RecordedAfterReplace(entries, tag, arr, tag);
        entries := entries[idx.value := Vote(tag, arr)];
      }
      store := store[j := store[j].(votes := entries)];
      return Success(|arr|);
    }

    method ExecEndorse(j: nat, w: WitnessData, threshold: JsNumber, members: seq<string>)
      returns (outcome: Outcome, accepted: bool)
      requires j < |store|
      modifies this`store
      ensures var exec := Machine.ExecEndorse(old(store[j].votes), Label(w.path, w.action), w.sigs, threshold, members);
              && outcome == exec.outcome && accepted == exec.accepted
              && store == old(store)[j := old(store[j]).(votes := exec.votes)]
    {
      var tag := Label(w.path, w.action);
      ghost var first := store;
      ghost var exec := Machine.ExecEndorse(store[j].votes, tag, w.sigs, threshold, members);
      var k := 0;
      while k < |w.sigs|
        invariant 0 <= k <= |w.sigs| && j < |store|
        invariant store == first[j := first[j].(votes := store[j].votes)]
        invariant Machine.ExecEndorse(store[j].votes, tag, w.sigs[k..], threshold, members) == exec
      {
        assert w.sigs[k..][1..] == w.sigs[k + 1..];
        var pub := PubOf(w.sigs[k]);
        if pub !in members {
          return VMError(NotAMember), false;
        }
        var count := RecordEntry(j, tag, pub);
        if count.Failure? {
          return VMError(count.error), false;
        }
        if Reaches(count.value, threshold) {
          return Done, true;
        }
        k := k + 1;
      }
      return Done, false;
    }

    /* ---- program.ts ---- */

    method RunProgram(w: WitnessData) returns (outcome: Outcome)
      modifies this
      ensures Step(outcome, Serialize()) == Machine.RunProgram(old(Serialize()), w)
    {
      var loaded := LoadProgram(programs, store, w);
      if loaded.Failure? {
        return loaded.error;
      }
      var program, j := programs[loaded.value.program], loaded.value.store;
      var accepted := false;
      match program.rule {
        case Endorse(threshold, members) =>
          outcome, accepted := ExecEndorse(j, w, threshold, members);
        case Claim(lock, members) =>
          outcome := ExecClaim(lock, members, w);
          accepted := outcome.Done?;
          assert store[j].(votes := store[j].votes) == store[j];
        case NoMethod(_) =>
          outcome := Throw(MethodNotFound);
      }
      assert Serialize() == WithVotes(old(Serialize()), j, ExecMethod(program.rule, old(store[j].votes), w).votes);
      if outcome.Done? && accepted {
        outcome := UpdateVMState(WitnessInput(w), ByProgram(program, w, Voters(program.rule, store[j].votes, w)));
      }
    }

    /* ---- main.ts ---- */

    /** The body of eval_witness inside its try block. */
    method EvalStack(stack: seq<WitnessData>) returns (outcome: Outcome)
      modifies this
      ensures Step(outcome, Serialize()) == Machine.EvalStack(old(Serialize()), stack)
    {
      outcome := Done;
      var i := 0;
      while i < |stack|
        invariant 0 <= i <= |stack| && outcome.Done?
        invariant Machine.EvalStack(Serialize(), stack[i..]) == Machine.EvalStack(old(Serialize()), stack)
      {
        assert stack[i..][1..] == stack[i + 1..];
        RunSchedule(stack[i].stamp);
        if closed {
          return;
        }
        outcome := RunProgram(stack[i]);
        if !outcome.Done? || closed {
          return;
        }
        i := i + 1;
      }
    }
  }

  method EvalWitness(data: MachineData, ws: seq<WitnessData>) returns (outcome: Outcome, result: MachineData)
    ensures Step(outcome, result) == Machine.EvalWitness(data, ws)
  {
    if data.output.Some? {
      return Done, data;
    }
    var vm := new CVMData.Revive(data);
    vm.error := None;
    outcome := vm.EvalStack(GetStatements(ws));
    match outcome {
      case Done =>
      case VMError(fault) =>
        vm.error := Some(fault);
        outcome := Done;
      case Throw(_) =>
        return outcome, data;
    }
    result := vm.Serialize();
  }

  method EvalSchedule(data: MachineData, stopAt: int) returns (result: MachineData)
    ensures result == Machine.EvalSchedule(data, stopAt)
  {
    if data.output.Some? {
      return data;
    }
    var vm := new CVMData.Revive(data);
    vm.RunSchedule(stopAt);
    result := vm.Serialize();
  }

  /* ---- Initialization ---- */

  /** The starting state of one path, from one pass over the programs. */
  method InitPathState(path: string, programs: seq<ProgramData>) returns (state: Option<PathState>)
    ensures state == Machine.InitPathState(path, programs)
  {
    var canDispute, canResolve := false, false;
    var pstate := Opened;
    for i := 0 to |programs|
      invariant canDispute <==> AnyGrants(programs[..i], "dispute", path)
      invariant canResolve <==> AnyGrants(programs[..i], "resolve", path)
      invariant pstate == if AnyGrants(programs[..i], "unlock", path) then Locked else Opened
    {
      var program := programs[i];
      assert programs[..i + 1] == programs[..i] + [program];
      AnyGrantsExtend(programs[..i], program, "dispute", path);
      AnyGrantsExtend(programs[..i], program, "resolve", path);
      AnyGrantsExtend(programs[..i], program, "unlock", path);
      if Regex(path, ProgramPaths(program)) {
        if Regex("dispute", program.actions) {
          canDispute := true;
        }
        if Regex("resolve", program.actions) {
          canResolve := true;
        }
        if Regex("unlock", program.actions) {
          pstate := Locked;
        }
      }
    }
    assert programs[..|programs|] == programs;
    return if canDispute && !canResolve then None else Some(pstate);
  }

  lemma AnyGrantsExtend(programs: seq<ProgramData>, program: ProgramData, action: string, path: string)
    ensures AnyGrants(programs + [program], action, path)
        <==> AnyGrants(programs, action, path) || Grants(program, action, path)
  {
    if Grants(program, action, path) {
      assert program in programs + [program];
    }
    if AnyGrants(programs, action, path) {
      var p :| p in programs && Grants(p, action, path);
      assert p in programs + [program];
    }
  }

  lemma InitVMStateStep(pathnames: seq<string>, programs: seq<ProgramData>, i: nat, paths: seq<PathEntry>)
    requires i < |pathnames|
    ensures var state := Machine.InitPathState(pathnames[i], programs);
            var rest := Machine.InitVMState(pathnames[i + 1..], programs);
            WithPrefix(paths, Machine.InitVMState(pathnames[i..], programs)) ==
            if state.None? then None else WithPrefix(paths + [PathEntry(pathnames[i], state.value)], rest)
  {
    assert pathnames[i..][0] == pathnames[i] && pathnames[i..][1..] == pathnames[i + 1..];
    var rest := Machine.InitVMState(pathnames[i + 1..], programs);
    var state := Machine.InitPathState(pathnames[i], programs);
    if state.Some? && rest.Some? {
      var entry := PathEntry(pathnames[i], state.value);
      assert paths + ([entry] + rest.value) == (paths + [entry]) + rest.value;
    }
  }

  ghost function WithPrefix(paths: seq<PathEntry>, rest: Option<seq<PathEntry>>): Option<seq<PathEntry>> {
    match rest
    case None => None
    case Some(s) => Some(paths + s)
  }

  method InitVMState(pathnames: seq<string>, programs: seq<ProgramData>) returns (states: Option<seq<PathEntry>>)
    ensures states == Machine.InitVMState(pathnames, programs)
  {
    var paths: seq<PathEntry> := [];
    ghost var all := Machine.InitVMState(pathnames, programs);
    assert pathnames[0..] == pathnames;
    if all.Some? {
      assert [] + all.value == all.value;
    }
    for i := 0 to |pathnames|
      invariant WithPrefix(paths, Machine.InitVMState(pathnames[i..], programs)) == all
    {
      InitVMStateStep(pathnames, programs, i, paths);
      var state := InitPathState(pathnames[i], programs);
      if state.None? {
        return None;
      }
      paths := paths + [PathEntry(pathnames[i], state.value)];
    }
    assert pathnames[|pathnames|..] == [] && paths + [] == paths;
    return Some(paths);
  }

  method InitVM(cfg: MachineConfig) returns (data: Option<MachineData>)
    ensures data == Machine.InitVM(cfg)
  {
    var paths := InitVMState(cfg.pathnames, cfg.programs);
    if paths.None? {
      return None;
    }
    return Some(MachineData(
      cfg.activeAt, false, None, cfg.activeAt, cfg.engine, None, cfg.expiresAt, Genesis(cfg.vmid), None,
      cfg.pathnames, cfg.programs, CVMState(paths.value, InitStatus, InitStores(cfg.programs)), 0,
      InitTasks(cfg.schedule), cfg.activeAt, cfg.vmid, []));
  }

  /* ---- The auditor ---- */

  /** verify_contract_execution: replay the statements one by one and compare. */
  method VerifyExecution(cfg: MachineConfig, vmdata: MachineData, ws: seq<WitnessData>) returns (ok: bool)
    ensures ok <==> Audit.ExecutionMatches(cfg, vmdata, ws)
  {
    var start := InitVM(cfg);
    if start.None? {
      return false;
    }
    var vmstate := start.value;
    var i := 0;
    while i < |ws|
      invariant 0 <= i <= |ws|
      invariant Audit.Replay(vmstate, ws[i..]) == Audit.Replay(start.value, ws)
    {
      assert ws[i..][1..] == ws[i + 1..];
      var outcome, next := EvalWitness(vmstate, [ws[i]]);
      if outcome.Throw? {
        return false;
      }
      vmstate := next;
      i := i + 1;
    }
    return Audit.FieldsAgree(vmstate, vmdata);
  }
}
