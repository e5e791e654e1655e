/**
 Moments of a run at which a poll, or the schedule run before a statement, gets to a task,
 and what they say of a catch-all task over a whole run.
 */
module Moments {
  import opened Wrappers
  import opened Machine
  import opened Frames
  import opened Invariants
  import opened Reachable
  import opened Polling
  import opened Timing
  import opened Liveness

  /* ---- Moments ---- */

  /** `mid` is a machine about to run a task, `k` tasks into a schedule run of `d`. */
  ghost predicate AboutToRun(d: MachineData, stopAt: int, mid: MachineData, task: Task, k: nat) {
    && k < |GetTasks(d, stopAt)| && GetTasks(d, stopAt)[k] == task
    && mid == RunTasks(d, GetTasks(d, stopAt)[..k]) && mid.output.None?
  }

  ghost predicate ScheduleMoment(d: MachineData, stopAt: int, mid: MachineData, task: Task) {
    exists k :: AboutToRun(d, stopAt, mid, task, k)
  }

  /** A moment in one of the schedule runs of an evaluation. */
  ghost predicate StackMoment(d: MachineData, stack: seq<WitnessData>, mid: MachineData, task: Task)
    decreases |stack|
  {
    && stack != []
    && (|| ScheduleMoment(d, stack[0].stamp, mid, task)
        || var next := RunProgram(RunSchedule(d, stack[0].stamp), stack[0]);
           next.outcome.Done? && StackMoment(next.data, stack[1..], mid, task))
  }

  ghost predicate EventMoment(d: MachineData, event: Event, mid: MachineData, task: Task) {
    match event
    case Statements(ws) => StackMoment(d.(error := None), GetStatements(ws), mid, task)
    case Poll(t) => ScheduleMoment(d, t, mid, task)
  }

  /** A moment of a run at which it gets to a task. */
  ghost predicate RunMoment(d: MachineData, events: seq<Event>, mid: MachineData, task: Task)
    decreases |events|
  {
    events != []
      && (EventMoment(d, events[0], mid, task) || RunMoment(Apply(d, events[0]).data, events[1..], mid, task))
  }

  /* ---- Consuming a task ---- */

  /** A reached machine on time, without an output or a close commit. */
  ghost predicate Going(cfg: MachineConfig, start: seq<PathEntry>, d: MachineData) {
    Inv(cfg, start, d) && OnTime(d) && d.output.None? && Closes(d.log) == 0
  }

  lemma DueIndex(d: MachineData, stopAt: int, k: nat)
    requires OnTime(d) && k < |d.tasks| && DueAt(d, d.tasks[k]) <= stopAt
    ensures k < |GetTasks(d, stopAt)| && GetTasks(d, stopAt)[k] == d.tasks[k]
        && GetTasks(d, stopAt)[..k] == d.tasks[..k]
  {
    var due := GetTasks(d, stopAt);
    DuePrefixIff(d, stopAt);
    assert d.tasks[0] in d.tasks && d.tasks[k] in d.tasks;
    assert due <= d.tasks;
    var keep := (task: Task) => IsDue(d, task, stopAt);
    PrefixCovers(d.tasks, keep, k);
  }

  /** Of an ascending queue that is kept up to a time, everything up to a kept task is kept. */
  lemma {:induction false} PrefixCovers(tasks: seq<Task>, keep: Task -> bool, k: nat)
    requires k < |tasks| && forall i | 0 <= i <= k :: keep(tasks[i])
    ensures |Text.Filter(tasks, keep)| > k
  {
    if k > 0 {
      PrefixCovers(tasks[1..], keep, k - 1);
    }
  }

  /** A catch-all task that a schedule run consumed without settling the machine found it stuck. */
  lemma ScheduleConsumes(
    cfg: MachineConfig, start: seq<PathEntry>, d: MachineData, stopAt: int, task: Task) returns (mid: MachineData)
    requires Going(cfg, start, d) && CatchAll(task, cfg.pathnames) && task in d.tasks
    requires var d' := RunSchedule(d, stopAt); d'.output.None? && Closes(d'.log) == 0 && task !in d'.tasks
    ensures ScheduleMoment(d, stopAt, mid, task) && Stuck(cfg, mid, task)
  {
    ScheduleDrains(d, stopAt);
    ConsumedIsDue(d, stopAt, task);
    var k := DrainSettles(cfg, start, d, task, stopAt);
    DueIndex(d, stopAt, k);
    mid := RunTasks(d, d.tasks[..k]);
    assert AboutToRun(d, stopAt, mid, task, k);
  }

  lemma ConsumedIsDue(d: MachineData, stopAt: int, task: Task)
    requires OnTime(d) && d.output.None? && task in d.tasks && task !in Drain(d, stopAt).tasks
    ensures DueAt(d, task) <= stopAt
  {
    var k := DrainLeavesLater(d, stopAt);
    assert d.tasks == d.tasks[..k] + d.tasks[k..];
  }

  /* ---- Statements and runs ---- */

  lemma ClosesGrow(d: MachineData, d': MachineData)
    requires Later(d, d') && Closes(d'.log) == 0
    ensures Closes(d.log) == 0
  {
    ClosesPrefix(d.log, d'.log);
  }

  lemma ScheduleGoes(cfg: MachineConfig, start: seq<PathEntry>, d: MachineData, stopAt: int)
    requires Going(cfg, start, d)
    requires RunSchedule(d, stopAt).output.None? && Closes(RunSchedule(d, stopAt).log) == 0
    ensures Going(cfg, start, RunSchedule(d, stopAt)) && !RunSchedule(d, stopAt).closed
    ensures forall task | task in RunSchedule(d, stopAt).tasks :: stopAt < DueAt(RunSchedule(d, stopAt), task)
  {
    RunScheduleKeeps(cfg, start, d, stopAt);
    ScheduleOnTime(d, stopAt);
  }

  lemma ProgramGoes(cfg: MachineConfig, start: seq<PathEntry>, d: MachineData, w: WitnessData)
    requires Going(cfg, start, d) && forall task | task in d.tasks :: w.stamp < DueAt(d, task)
    requires !RunProgram(d, w).data.closed && Closes(RunProgram(d, w).data.log) == 0
    ensures Going(cfg, start, RunProgram(d, w).data) && RunProgram(d, w).data.tasks == d.tasks
  {
    RunProgramKeeps(cfg, start, d, w);
    RunProgramOnTime(d, w);
    RunProgramLater(d, w);
  }

  lemma {:induction false} StackConsumes(
    cfg: MachineConfig, start: seq<PathEntry>, d: MachineData, stack: seq<WitnessData>,
    task: Task) returns (mid: MachineData)
    requires Going(cfg, start, d) && CatchAll(task, cfg.pathnames) && task in d.tasks
    requires var last := EvalStack(d, stack).data; last.output.None? && Closes(last.log) == 0 && task !in last.tasks
    ensures StackMoment(d, stack, mid, task) && Stuck(cfg, mid, task)
    decreases |stack|
  {
    var timed := RunSchedule(d, stack[0].stamp);
    StackBeginsTimed(cfg, start, d, stack);
    if task !in timed.tasks {
      mid := ScheduleConsumes(cfg, start, d, stack[0].stamp, task);
    } else {
      ScheduleGoes(cfg, start, d, stack[0].stamp);
      var next := RunProgram(timed, stack[0]);
      RunProgramLater(timed, stack[0]);
      EvalStackLater(next.data, stack[1..]);
      ClosesGrow(next.data, EvalStack(next.data, stack[1..]).data);
      ProgramGoes(cfg, start, timed, stack[0]);
      mid := StackConsumes(cfg, start, next.data, stack[1..], task);
    }
  }

  /** An evaluation that ends without an output or a close got through its first schedule run without either. */
  lemma StackBeginsTimed(cfg: MachineConfig, start: seq<PathEntry>, d: MachineData, stack: seq<WitnessData>)
    requires Going(cfg, start, d) && stack != []
    requires EvalStack(d, stack).data.output.None? && Closes(EvalStack(d, stack).data.log) == 0
    ensures RunSchedule(d, stack[0].stamp).output.None? && Closes(RunSchedule(d, stack[0].stamp).log) == 0
  {
    RunScheduleKeeps(cfg, start, d, stack[0].stamp);
    AfterFirstRun(d, stack);
    ClosesGrow(RunSchedule(d, stack[0].stamp), EvalStack(d, stack).data);
  }

  lemma AfterFirstRun(d: MachineData, stack: seq<WitnessData>)
    requires stack != []
    ensures var timed := RunSchedule(d, stack[0].stamp);
            Later(timed, EvalStack(d, stack).data) && (timed.closed ==> EvalStack(d, stack).data == timed)
  {
    var timed := RunSchedule(d, stack[0].stamp);
    var next := RunProgram(timed, stack[0]);
    RunProgramLater(timed, stack[0]);
    EvalStackLater(next.data, stack[1..]);
  }

  lemma EventConsumes(
    cfg: MachineConfig, start: seq<PathEntry>, d: MachineData, event: Event, task: Task) returns (mid: MachineData)
    requires Going(cfg, start, d) && CatchAll(task, cfg.pathnames) && task in d.tasks
    requires var d' := Apply(d, event).data; d'.output.None? && Closes(d'.log) == 0 && task !in d'.tasks
    ensures EventMoment(d, event, mid, task) && Stuck(cfg, mid, task)
  {
    match event {
      case Poll(t) => mid := ScheduleConsumes(cfg, start, d, t, task);
      case Statements(ws) =>
        ClearedGoes(cfg, start, d);
        SameQueue(d, ws, task);
        mid := StackConsumes(cfg, start, d.(error := None), GetStatements(ws), task);
    }
  }

  lemma ClearedGoes(cfg: MachineConfig, start: seq<PathEntry>, d: MachineData)
    requires Going(cfg, start, d)
    ensures Going(cfg, start, d.(error := None))
  {
    ErrorFree(cfg, start, d, None);
  }

  /** An evaluation that consumed a task did not throw, and returns what its stack came to. */
  lemma SameQueue(d: MachineData, ws: seq<WitnessData>, task: Task)
    requires d.output.None? && task in d.tasks && task !in EvalWitness(d, ws).data.tasks
    ensures var last := EvalStack(d.(error := None), GetStatements(ws)).data;
            var d' := EvalWitness(d, ws).data;
            last.tasks == d'.tasks && last.log == d'.log && last.output == d'.output
  {
    var last := EvalStack(d.(error := None), GetStatements(ws));
    match last.outcome {
      case Done => assert EvalWitness(d, ws) == last;
      case VMError(fault) => assert EvalWitness(d, ws).data == last.data.(error := Some(fault));
      case Throw(_) => assert false;
    }
  }

  lemma {:induction false} RunConsumes(
    cfg: MachineConfig, start: seq<PathEntry>, d: MachineData, events: seq<Event>,
    task: Task) returns (mid: MachineData)
    requires Going(cfg, start, d) && CatchAll(task, cfg.pathnames) && task in d.tasks
    requires var d' := Run(d, events); d'.output.None? && Closes(d'.log) == 0 && task !in d'.tasks
    ensures RunMoment(d, events, mid, task) && Stuck(cfg, mid, task)
    decreases |events|
  {
    var next := Apply(d, events[0]).data;
    RunLater(next, events[1..]);
    ClosesGrow(next, Run(next, events[1..]));
    if next.output.Some? {
      OutputIsFinal(next, events[1..]);
    }
    if task !in next.tasks {
      mid := EventConsumes(cfg, start, d, events[0], task);
    } else {
      ApplyKeeps(cfg, start, d, events[0]);
      ApplyOnTime(d, events[0]);
      mid := RunConsumes(cfg, start, next, events[1..], task);
    }
  }

  /**
   Over a whole run, however it was polled and whatever statements ran its schedule: a
   catch-all task that has left the queue settled the machine, or the machine was closed, or
   when the run got to the task every path it names was locked and no path was disputed.
   */
  lemma {:induction false} CatchAllRun(
    cfg: MachineConfig, events: seq<Event>, d: MachineData, task: Task) returns (mid: MachineData)
    requires IsRun(cfg, events, d)
    requires CheckSchedule(cfg.expiresAt - cfg.activeAt, cfg.pathnames, cfg.schedule) && NonNegative(cfg.schedule)
    requires task in cfg.schedule && CatchAll(task, cfg.pathnames) && task !in d.tasks
    ensures || d.output.Some?
            || Closes(d.log) > 0
            || (RunMoment(InitVM(cfg).value, events, mid, task) && Stuck(cfg, mid, task))
  {
    var d0 := InitVM(cfg).value;
    mid := d0;
    if d.output.None? && Closes(d.log) == 0 {
      InitHolds(cfg);
      InitOnTime(cfg);
      InitTasksMembers(cfg.schedule);
      mid := RunConsumes(cfg, d0.state.paths, d0, events, task);
    }
  }
}
