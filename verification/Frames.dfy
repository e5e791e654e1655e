/**
 What tasks and evaluations leave alone, for any record at all: no well-formedness is assumed.
 */
module Frames {
  import opened Wrappers
  import opened Machine

  /** The fields no operation of the machine writes. */
  ghost predicate SameConfig(d: MachineData, d': MachineData) {
    && d'.activeAt == d.activeAt && d'.updatedAt == d.updatedAt && d'.expiresAt == d.expiresAt
    && d'.engine == d.engine && d'.vmid == d.vmid
    && d'.pathnames == d.pathnames && d'.programs == d.programs
    && PathNames(d'.state.paths) == PathNames(d.state.paths)
  }

  /** The past is never rewritten: the log is extended, and the clock and the closing only advance. */
  ghost predicate Later(d: MachineData, d': MachineData) {
    && SameConfig(d, d')
    && d.log <= d'.log
    && d'.step - d.step == |d'.log| - |d.log|
    && d.commitAt <= d'.commitAt
    && (d.closed ==> d'.closed)
    && ((d.output.Some? ==> d.closed) ==> (d'.output.Some? ==> d'.closed))
    && (d'.log == d.log ==> SameResult(d, d'))
  }

  /** What only a commit changes, of the fields that describe a machine's result. */
  ghost predicate SameResult(d: MachineData, d': MachineData) {
    && d'.closed == d.closed && d'.closedAt == d.closedAt && d'.commitAt == d.commitAt
    && d'.head == d.head && d'.output == d.output
  }

  /** What a task does: nothing but commits. */
  ghost predicate OnlyCommits(d: MachineData, d': MachineData) {
    && Later(d, d')
    && d'.tasks == d.tasks && d'.state.store == d.state.store && d'.error == d.error
    && (d'.log == d.log ==> d' == d)
  }

  lemma PathNamesUpdate(paths: seq<PathEntry>, i: nat, state: PathState)
    requires i < |paths|
    ensures PathNames(paths[i := PathEntry(paths[i].name, state)]) == PathNames(paths)
  {}

  lemma UpdateCommits(d: MachineData, input: VMInput, origin: Origin)
    ensures OnlyCommits(d, Update(d, input, origin).data)
    ensures !Update(d, input, origin).outcome.Done? ==> Update(d, input, origin).data == d
    ensures Update(d, input, origin).outcome.Done? ==>
      Update(d, input, origin).data.log == d.log + [LogEntry(input, origin)]
  {
    if Transition(d.state, input).Success? && !VerbOf(input.action).Close? {
      var i := FindPath(d.state.paths, input.path.value).value;
      PathNamesUpdate(d.state.paths, i, Transition(d.state, input).value.paths[i].state);
    }
  }

  lemma CommitsCompose(a: MachineData, b: MachineData, c: MachineData)
    requires OnlyCommits(a, b) && OnlyCommits(b, c)
    ensures OnlyCommits(a, c)
  {}

  lemma {:induction false} RunPathsCommits(d: MachineData, task: Task, action: string, plist: seq<string>)
    ensures OnlyCommits(d, RunPaths(d, task, action, plist).data)
    decreases |plist|
  {
    if plist != [] {
      var input := TaskInput(d, task, action, Some(plist[0]));
      var next := Update(d, input, ByTask(task)).data;
      UpdateCommits(d, input, ByTask(task));
      RunPathsCommits(next, task, action, plist[1..]);
      CommitsCompose(d, next, RunPaths(next, task, action, plist[1..]).data);
    }
  }

  lemma {:induction false} RunActionsCommits(d: MachineData, task: Task, alist: seq<string>, plist: seq<string>)
    ensures OnlyCommits(d, RunActions(d, task, alist, plist))
    decreases |alist|
  {
    if alist != [] {
      var next;
      if IsPathAction(alist[0]) {
        RunPathsCommits(d, task, alist[0], plist);
        next := RunPaths(d, task, alist[0], plist).data;
      } else {
        var input := TaskInput(d, task, alist[0], None);
        UpdateCommits(d, input, ByTask(task));
        next := Update(d, input, ByTask(task)).data;
      }
      RunActionsCommits(next, task, alist[1..], plist);
      CommitsCompose(d, next, RunActions(next, task, alist[1..], plist));
    }
  }

  lemma RunTaskCommits(d: MachineData, task: Task)
    ensures OnlyCommits(d, RunTask(d, task))
  {
    RunActionsCommits(d, task, TaskActions(task), TaskPaths(task, d.state.paths));
  }

  /** What a schedule run does: commits, and a shorter queue. */
  ghost predicate CommitsAndShifts(d: MachineData, d': MachineData) {
    && Later(d, d')
    && d'.state.store == d.state.store && d'.error == d.error
    && (d'.log == d.log ==> d' == d.(tasks := d'.tasks))
    && (forall task | task in d'.tasks :: task in d.tasks)
  }

  lemma {:induction false} RunTasksCommits(d: MachineData, due: seq<Task>)
    ensures CommitsAndShifts(d, RunTasks(d, due))
    decreases |due|
  {
    if due != [] {
      RunTaskCommits(d, due[0]);
      var next := Shift(RunTask(d, due[0]));
      RunTasksCommits(next, due[1..]);
    }
  }

  lemma RunProgramLater(d: MachineData, w: WitnessData)
    ensures Later(d, RunProgram(d, w).data)
    ensures RunProgram(d, w).data.tasks == d.tasks && RunProgram(d, w).data.error == d.error
  {
    match LoadProgram(d.programs, d.state.store, w) {
      case Failure(_) =>
      case Success(Loaded(i, j)) =>
        var exec := ExecMethod(d.programs[i].rule, d.state.store[j].votes, w);
        UpdateCommits(WithVotes(d, j, exec.votes), WitnessInput(w),
          ByProgram(d.programs[i], w, Voters(d.programs[i].rule, exec.votes, w)));
    }
  }

  lemma {:induction false} EvalStackLater(d: MachineData, stack: seq<WitnessData>)
    ensures Later(d, EvalStack(d, stack).data)
    decreases |stack|
  {
    if stack != [] {
      RunTasksCommits(d, GetTasks(d, stack[0].stamp));
      var timed := RunSchedule(d, stack[0].stamp);
      RunProgramLater(timed, stack[0]);
      EvalStackLater(RunProgram(timed, stack[0]).data, stack[1..]);
    }
  }

  lemma EvalWitnessLater(d: MachineData, ws: seq<WitnessData>)
    ensures Later(d, EvalWitness(d, ws).data)
  {
    if d.output.None? {
      var cleared := d.(error := None);
      var last := EvalStack(cleared, GetStatements(ws));
      EvalStackLater(cleared, GetStatements(ws));
      assert Later(d, cleared);
      match last.outcome {
        case Done =>
        case VMError(fault) => assert Later(last.data, last.data.(error := Some(fault)));
        case Throw(_) =>
      }
    }
  }

  lemma ApplyLater(d: MachineData, event: Event)
    ensures Later(d, Apply(d, event).data)
  {
    match event {
      case Statements(ws) => EvalWitnessLater(d, ws);
      case Poll(t) => RunTasksCommits(d, GetTasks(d, t));
    }
  }

  /** Along any run the log is only extended and the clock never goes back. */
  lemma {:induction false} RunLater(d: MachineData, events: seq<Event>)
    ensures Later(d, Run(d, events))
    decreases |events|
  {
    if events != [] {
      ApplyLater(d, events[0]);
      RunLater(Apply(d, events[0]).data, events[1..]);
    }
  }

  /** Once a path is output the machine never changes again. */
  lemma {:induction false} OutputIsFinal(d: MachineData, events: seq<Event>)
    requires d.output.Some?
    ensures Run(d, events) == d
    decreases |events|
  {
    if events != [] {
      OutputIsFinal(d, events[1..]);
    }
  }

  /** Running more events continues the run. */
  lemma {:induction false} RunConcat(d: MachineData, es: seq<Event>, fs: seq<Event>)
    ensures Run(d, es + fs) == Run(Run(d, es), fs)
    decreases |es|
  {
    if es == [] {
      assert es + fs == fs;
    } else {
      assert (es + fs)[0] == es[0] && (es + fs)[1..] == es[1..] + fs;
      RunConcat(Apply(d, es[0]).data, es[1..], fs);
    }
  }
}
