/**
 The task queue, and why it does not matter when or how often a machine is polled.
 */
module Polling {
  import opened Wrappers
  import opened Text
  import opened Machine
  import opened Frames
  import Sorting

  function DueAt(d: MachineData, task: Task): int {
    d.activeAt + task.timer
  }

  /** A queue in order of time, none of it from before the machine was activated. */
  ghost predicate QueueOk(d: MachineData) {
    && Sorting.Sorted(d.tasks, TaskTimer)
    && forall task | task in d.tasks :: d.updatedAt <= DueAt(d, task)
  }

  lemma QueueTail(d: MachineData, d': MachineData)
    requires QueueOk(d) && d.tasks != [] && SameConfig(d, d') && d'.tasks == d.tasks[1..]
    ensures QueueOk(d')
    ensures forall task | task in d.tasks :: d.tasks[0].timer <= task.timer
  {
    HeadIsLeast(d.tasks);
    forall task | task in d'.tasks
      ensures d'.updatedAt <= DueAt(d', task)
    {
      assert task in d.tasks;
    }
  }

  /* ---- Consuming the queue ---- */

  /** The queue run from its head, one due task at a time. */
  function Drain(d: MachineData, stopAt: int): MachineData
    decreases |d.tasks|
  {
    if d.tasks == [] || stopAt < DueAt(d, d.tasks[0]) then d
    else
      RunTaskCommits(d, d.tasks[0]);
      var next := Shift(RunTask(d, d.tasks[0]));
      if next.output.Some? then next else Drain(next, stopAt)
  }

  lemma {:induction false} FilterSame<T(!new)>(s: seq<T>, f: T -> bool, g: T -> bool)
    requires forall x | x in s :: f(x) == g(x)
    ensures Filter(s, f) == Filter(s, g)
  {
    if s != [] {
      FilterSame(s[1..], f, g);
    }
  }

  /** The due tasks are the head of the queue and what is due of the rest, or nothing at all. */
  lemma DueTasks(d: MachineData, stopAt: int, next: MachineData)
    requires QueueOk(d) && d.tasks != [] && SameConfig(d, next) && next.tasks == d.tasks[1..]
    ensures DueAt(d, d.tasks[0]) <= stopAt ==> GetTasks(d, stopAt) == [d.tasks[0]] + GetTasks(next, stopAt)
    ensures DueAt(d, d.tasks[0]) > stopAt ==> GetTasks(d, stopAt) == []
  {
    var due := (task: Task) => IsDue(d, task, stopAt);
    if DueAt(d, d.tasks[0]) <= stopAt {
      FilterSame(d.tasks[1..], due, (task: Task) => IsDue(next, task, stopAt));
    } else {
      QueueTail(d, next);
      FilterNone(d.tasks, due);
    }
  }

  /** Each shift removes the task that has just been run. */
  lemma {:induction false} ScheduleDrains(d: MachineData, stopAt: int)
    requires QueueOk(d)
    ensures RunSchedule(d, stopAt) == Drain(d, stopAt)
    decreases |d.tasks|
  {
    if d.tasks != [] {
      RunTaskCommits(d, d.tasks[0]);
      var next := Shift(RunTask(d, d.tasks[0]));
      DueTasks(d, stopAt, next);
      QueueTail(d, next);
      if DueAt(d, d.tasks[0]) <= stopAt && next.output.None? {
        ScheduleDrains(next, stopAt);
        assert GetTasks(d, stopAt)[1..] == GetTasks(next, stopAt);
      }
    }
  }

  /** `d'` is left after the first `k` tasks of `d`, all due by `stopAt`, with none left due unless a path is output. */
  ghost predicate Consumed(d: MachineData, d': MachineData, k: nat, stopAt: int) {
    && k <= |d.tasks| && d'.tasks == d.tasks[k..]
    && (forall task | task in d.tasks[..k] :: DueAt(d, task) <= stopAt)
    && (d'.output.None? ==> forall task | task in d'.tasks :: DueAt(d, task) > stopAt)
  }

  lemma ConsumedOne(d: MachineData, next: MachineData, d': MachineData, k: nat, stopAt: int)
    requires d.tasks != [] && SameConfig(d, next) && next.tasks == d.tasks[1..]
    requires DueAt(d, d.tasks[0]) <= stopAt && Consumed(next, d', k, stopAt)
    ensures Consumed(d, d', k + 1, stopAt)
  {
    assert d.tasks[..k + 1] == [d.tasks[0]] + next.tasks[..k];
  }

  lemma {:induction false} DrainLeavesLater(d: MachineData, stopAt: int) returns (k: nat)
    requires QueueOk(d) && d.output.None?
    ensures QueueOk(Drain(d, stopAt)) && SameConfig(d, Drain(d, stopAt))
    ensures Consumed(d, Drain(d, stopAt), k, stopAt)
    decreases |d.tasks|
  {
    k := 0;
    if d.tasks != [] {
      RunTaskCommits(d, d.tasks[0]);
      var next := Shift(RunTask(d, d.tasks[0]));
      QueueTail(d, next);
      if DueAt(d, d.tasks[0]) <= stopAt {
        if next.output.None? {
          k := DrainLeavesLater(next, stopAt);
        }
        ConsumedOne(d, next, Drain(d, stopAt), k, stopAt);
        k := k + 1;
      }
    }
  }

  /** A poll runs a prefix of the queue; when it outputs nothing, exactly the later tasks remain, in order. */
  lemma {:induction false} QueueConsumption(d: MachineData, stopAt: int) returns (k: nat)
    requires QueueOk(d) && d.output.None?
    ensures QueueOk(EvalSchedule(d, stopAt)) && Consumed(d, EvalSchedule(d, stopAt), k, stopAt)
  {
    ScheduleDrains(d, stopAt);
    k := DrainLeavesLater(d, stopAt);
  }

  /* ---- A queue with an overdue head ---- */

  /** Whatever the due tasks were, a run that outputs nothing shifts as many tasks as it ran. */
  lemma {:induction false} ShiftsAsManyAsRun(d: MachineData, due: seq<Task>)
    requires |due| <= |d.tasks| && RunTasks(d, due).output.None?
    ensures RunTasks(d, due).tasks == d.tasks[|due|..]
    decreases |due|
  {
    if due != [] {
      RunTaskCommits(d, due[0]);
      ShiftsAsManyAsRun(Shift(RunTask(d, due[0])), due[1..]);
    }
  }

  /** The due tasks of a sorted queue are contiguous, behind `m` overdue ones. */
  lemma {:induction false} DueIsContiguous(tasks: seq<Task>, keep: Task -> bool, low: int, high: int) returns (m: nat)
    requires Sorting.Sorted(tasks, TaskTimer)
    requires forall task :: keep(task) <==> low <= task.timer <= high
    ensures var due := Filter(tasks, keep);
            && m + |due| <= |tasks| && due == tasks[m..m + |due|]
            && (due != [] ==> (m > 0 <==> tasks[0].timer < low))
  {
    m := 0;
    if tasks != [] {
      HeadIsLeast(tasks);
      if tasks[0].timer > high {
        FilterNone(tasks, keep);
      } else {
        var rest := DueIsContiguous(tasks[1..], keep, low, high);
        var due := Filter(tasks[1..], keep);
        if tasks[0].timer < low {
          m := rest + 1;
          SliceOfTail(tasks, rest, rest + |due|);
        } else {
          if due != [] {
            assert tasks[1] in tasks && rest == 0;
          }
          SliceWithHead(tasks, |due| + 1);
        }
      }
    }
  }

  lemma HeadIsLeast(tasks: seq<Task>)
    requires Sorting.Sorted(tasks, TaskTimer) && tasks != []
    ensures Sorting.Sorted(tasks[1..], TaskTimer)
    ensures forall task | task in tasks :: tasks[0].timer <= task.timer
  {
    Sorting.SortedTail(tasks, TaskTimer);
    forall task | task in tasks
      ensures tasks[0].timer <= task.timer
    {
      assert TaskTimer(tasks[0]) <= TaskTimer(task);
    }
  }

  /**
   Timers may be negative as far as the proposal checks go. The due tasks are then a prefix
   of the sorted queue exactly when nothing is due or the head of the queue is not overdue.
   */
  lemma {:induction false} DuePrefixIff(d: MachineData, stopAt: int)
    requires Sorting.Sorted(d.tasks, TaskTimer) && d.tasks != []
    ensures GetTasks(d, stopAt) <= d.tasks
       <==> GetTasks(d, stopAt) == [] || d.updatedAt <= DueAt(d, d.tasks[0])
  {
    var keep := (task: Task) => IsDue(d, task, stopAt);
    var m := DueIsContiguous(d.tasks, keep, d.updatedAt - d.activeAt, stopAt - d.activeAt);
    var due := GetTasks(d, stopAt);
    assert due == Filter(d.tasks, keep);
    if due != [] {
      assert due[0] in due && due[0] == d.tasks[m];
      if due <= d.tasks {
        assert due[0] == d.tasks[0];
      }
    }
  }

  /** Behind an overdue head, a task that has just been run is still in the queue to be run again. */
  lemma {:induction false} OverdueHeadRepeats(d: MachineData, stopAt: int)
    requires Sorting.Sorted(d.tasks, TaskTimer) && d.tasks != [] && DueAt(d, d.tasks[0]) < d.updatedAt
    requires GetTasks(d, stopAt) != [] && RunSchedule(d, stopAt).output.None?
    ensures var due := GetTasks(d, stopAt);
            && due[|due| - 1] in RunSchedule(d, stopAt).tasks
            && due[|due| - 1] in GetTasks(RunSchedule(d, stopAt), stopAt)
  {
    var keep := (task: Task) => IsDue(d, task, stopAt);
    var m := DueIsContiguous(d.tasks, keep, d.updatedAt - d.activeAt, stopAt - d.activeAt);
    var due := GetTasks(d, stopAt);
    assert due == Filter(d.tasks, keep);
    LastIsLeftBehind(d.tasks, m, |due|);
    assert due[|due| - 1] in due;
    StillDue(d, due, stopAt);
  }

  lemma StillDue(d: MachineData, due: seq<Task>, stopAt: int)
    requires 0 < |due| <= |d.tasks| && RunTasks(d, due).output.None?
    requires due[|due| - 1] in d.tasks[|due|..] && IsDue(d, due[|due| - 1], stopAt)
    ensures due[|due| - 1] in RunTasks(d, due).tasks
    ensures due[|due| - 1] in GetTasks(RunTasks(d, due), stopAt)
  {
    ShiftsAsManyAsRun(d, due);
    RunTasksCommits(d, due);
  }

  lemma LastIsLeftBehind<T>(s: seq<T>, m: nat, n: nat)
    requires 0 < m && 0 < n && m + n <= |s|
    ensures s[m..m + n][n - 1] in s[n..]
  {
    assert s[m..m + n][n - 1] == s[n..][m - 1];
  }

  /* ---- Polling ---- */

  lemma {:induction false} DrainTwice(d: MachineData, t1: int, t2: int)
    requires d.output.None? && t1 <= t2
    ensures var mid := Drain(d, t1);
            Drain(d, t2) == if mid.output.Some? then mid else Drain(mid, t2)
    decreases |d.tasks|
  {
    if d.tasks != [] && DueAt(d, d.tasks[0]) <= t1 {
      RunTaskCommits(d, d.tasks[0]);
      var next := Shift(RunTask(d, d.tasks[0]));
      if next.output.None? {
        DrainTwice(next, t1, t2);
      }
    }
  }

  lemma {:induction false} DrainIdle(d: MachineData, stopAt: int)
    requires forall task | task in d.tasks :: DueAt(d, task) > stopAt
    ensures Drain(d, stopAt) == d
  {
    if d.tasks != [] {
      assert d.tasks[0] in d.tasks;
    }
  }

  function Max(a: int, b: int): int {
    if a < b then b else a
  }

  /** Two polls are one poll at the later of their times. */
  lemma {:induction false} PollTwice(d: MachineData, t1: int, t2: int)
    requires QueueOk(d)
    ensures EvalSchedule(EvalSchedule(d, t1), t2) == EvalSchedule(d, Max(t1, t2))
  {
    if d.output.None? {
      var mid := Drain(d, t1);
      ScheduleDrains(d, t1);
      ScheduleDrains(d, Max(t1, t2));
      var _ := DrainLeavesLater(d, t1);
      if mid.output.None? {
        ScheduleDrains(mid, t2);
      }
      if t1 <= t2 {
        DrainTwice(d, t1, t2);
      } else if mid.output.None? {
        DrainIdle(mid, t2);
      }
    }
  }

  /** Two records that differ at most in the recorded error. */
  ghost predicate SameButError(d: MachineData, d': MachineData) {
    d.(error := None) == d'.(error := None)
  }

  lemma UpdateIgnoresError(d: MachineData, e: Option<Fault>, input: VMInput, origin: Origin)
    ensures var next := Update(d, input, origin);
            Update(d.(error := e), input, origin) == Step(next.outcome, next.data.(error := e))
  {}

  lemma {:induction false} RunPathsIgnoresError(
    d: MachineData, e: Option<Fault>, task: Task, action: string, plist: seq<string>)
    ensures var flow := RunPaths(d, task, action, plist);
            RunPaths(d.(error := e), task, action, plist) == Flow(flow.data.(error := e), flow.stop)
    decreases |plist|
  {
    if plist != [] {
      var input := TaskInput(d, task, action, Some(plist[0]));
      UpdateIgnoresError(d, e, input, ByTask(task));
      var next := Update(d, input, ByTask(task)).data;
      RunPathsIgnoresError(next, e, task, action, plist[1..]);
    }
  }

  lemma {:induction false} RunActionsIgnoresError(
    d: MachineData, e: Option<Fault>, task: Task, alist: seq<string>, plist: seq<string>)
    ensures RunActions(d.(error := e), task, alist, plist) == RunActions(d, task, alist, plist).(error := e)
    decreases |alist|
  {
    if alist != [] {
      if IsPathAction(alist[0]) {
        RunPathsIgnoresError(d, e, task, alist[0], plist);
        RunActionsIgnoresError(RunPaths(d, task, alist[0], plist).data, e, task, alist[1..], plist);
      } else {
        var input := TaskInput(d, task, alist[0], None);
        UpdateIgnoresError(d, e, input, ByTask(task));
        RunActionsIgnoresError(Update(d, input, ByTask(task)).data, e, task, alist[1..], plist);
      }
    }
  }

  lemma {:induction false} DrainIgnoresError(d: MachineData, e: Option<Fault>, stopAt: int)
    ensures Drain(d.(error := e), stopAt) == Drain(d, stopAt).(error := e)
    decreases |d.tasks|
  {
    if d.tasks != [] {
      var task := d.tasks[0];
      RunActionsIgnoresError(d, e, task, TaskActions(task), TaskPaths(task, d.state.paths));
      RunTaskCommits(d, task);
      DrainIgnoresError(Shift(RunTask(d, task)), e, stopAt);
    }
  }

  /** Draining up to a statement's stamp after an earlier poll is the same as draining once. */
  lemma PollThenSchedule(d: MachineData, t: int, stopAt: int)
    requires QueueOk(d) && d.output.None? && t <= stopAt
    ensures var polled := EvalSchedule(d, t);
            && QueueOk(polled)
            && (polled.output.Some? ==> SameButError(RunSchedule(d.(error := None), stopAt), polled))
            && (polled.output.None?
               ==> RunSchedule(d.(error := None), stopAt) == RunSchedule(polled.(error := None), stopAt))
  {
    var polled := Drain(d, t);
    ScheduleDrains(d, t);
    var _ := DrainLeavesLater(d, t);
    DrainTwice(d, t, stopAt);
    DrainIgnoresError(d, None, stopAt);
    ScheduleDrains(d.(error := None), stopAt);
    if polled.output.None? {
      DrainIgnoresError(polled, None, stopAt);
      ScheduleDrains(polled.(error := None), stopAt);
    }
  }

  /** A poll no later than any of the statements changes nothing but the error field. */
  lemma {:induction false} PollThenEval(d: MachineData, t: int, ws: seq<WitnessData>)
    requires QueueOk(d) && ws != [] && forall w | w in ws :: t <= w.stamp
    ensures var direct, polled := EvalWitness(d, ws), EvalWitness(EvalSchedule(d, t), ws);
            && direct.outcome == polled.outcome
            && (!direct.outcome.Throw? ==> SameButError(direct.data, polled.data))
            && (EvalSchedule(d, t).output.None? && !direct.outcome.Throw? ==> direct == polled)
  {
    if d.output.None? {
      var stack := GetStatements(ws);
      assert stack[0] in multiset(stack);
      assert t <= stack[0].stamp;
      if EvalSchedule(d, t).output.Some? {
        PollSettles(d, t, ws);
      } else {
        PollLeaves(d, t, ws);
      }
    }
  }

  /** A poll that settles the machine does what the evaluation would have begun with. */
  lemma PollSettles(d: MachineData, t: int, ws: seq<WitnessData>)
    requires QueueOk(d) && d.output.None? && EvalSchedule(d, t).output.Some?
    requires ws != [] && t <= GetStatements(ws)[0].stamp
    ensures EvalWitness(d, ws).outcome.Done? && SameButError(EvalWitness(d, ws).data, EvalSchedule(d, t))
  {
    var stack, cleared := GetStatements(ws), d.(error := None);
    PollThenSchedule(d, t, stack[0].stamp);
    RunTasksCommits(cleared, GetTasks(cleared, stack[0].stamp));
    assert EvalStack(cleared, stack) == Step(Done, RunSchedule(cleared, stack[0].stamp));
  }

  lemma PollLeaves(d: MachineData, t: int, ws: seq<WitnessData>)
    requires QueueOk(d) && d.output.None? && EvalSchedule(d, t).output.None?
    requires ws != [] && t <= GetStatements(ws)[0].stamp
    ensures var direct, polled := EvalWitness(d, ws), EvalWitness(EvalSchedule(d, t), ws);
            && direct.outcome == polled.outcome
            && (!direct.outcome.Throw? ==> direct == polled)
  {
    var stack := GetStatements(ws);
    PollThenSchedule(d, t, stack[0].stamp);
    var polled := EvalSchedule(d, t);
    assert EvalStack(d.(error := None), stack) == EvalStack(polled.(error := None), stack);
  }

  /* ---- The queue along a run ---- */

  lemma ScheduleKeepsQueue(d: MachineData, stopAt: int)
    requires QueueOk(d) && d.output.None?
    ensures QueueOk(RunSchedule(d, stopAt))
  {
    ScheduleDrains(d, stopAt);
    var _ := DrainLeavesLater(d, stopAt);
  }

  lemma {:induction false} EvalStackKeepsQueue(d: MachineData, stack: seq<WitnessData>)
    requires QueueOk(d) && d.output.None?
    ensures QueueOk(EvalStack(d, stack).data)
    decreases |stack|
  {
    if stack != [] {
      ScheduleKeepsQueue(d, stack[0].stamp);
      RunTasksCommits(d, GetTasks(d, stack[0].stamp));
      var timed := RunSchedule(d, stack[0].stamp);
      RunProgramLater(timed, stack[0]);
      var next := RunProgram(timed, stack[0]);
      if !timed.closed && next.outcome.Done? && !next.data.closed {
        EvalStackKeepsQueue(next.data, stack[1..]);
      }
    }
  }

  lemma ApplyKeepsQueue(d: MachineData, event: Event)
    requires QueueOk(d)
    ensures QueueOk(Apply(d, event).data)
  {
    if d.output.None? {
      match event {
        case Statements(ws) => EvalStackKeepsQueue(d.(error := None), GetStatements(ws));
        case Poll(t) => ScheduleKeepsQueue(d, t);
      }
    }
  }

  /** An initialized machine has a sound queue exactly when no timer is negative. */
  lemma InitQueue(cfg: MachineConfig)
    requires InitVM(cfg).Some?
    ensures QueueOk(InitVM(cfg).value) <==> forall task | task in cfg.schedule :: 0 <= task.timer
  {
    Sorting.SortBySorted(cfg.schedule, TaskTimer);
    forall task
      ensures task in InitTasks(cfg.schedule) <==> task in cfg.schedule
    {
      assert task in multiset(cfg.schedule) <==> task in multiset(InitTasks(cfg.schedule));
    }
  }

  lemma {:induction false} RunKeepsQueue(d: MachineData, events: seq<Event>)
    requires QueueOk(d)
    ensures QueueOk(Run(d, events))
    decreases |events|
  {
    if events != [] {
      ApplyKeepsQueue(d, events[0]);
      RunKeepsQueue(Apply(d, events[0]).data, events[1..]);
    }
  }

  /**
   In every reachable machine whose schedule has no negative timer the queue is sound, so
   polls may be merged, and polls before a batch of statements may be left out.
   */
  lemma {:induction false} PollingIndependence(
    cfg: MachineConfig, events: seq<Event>, d: MachineData, t1: int, t2: int, ws: seq<WitnessData>)
    requires IsRun(cfg, events, d) && forall task | task in cfg.schedule :: 0 <= task.timer
    ensures EvalSchedule(EvalSchedule(d, t1), t2) == EvalSchedule(d, Max(t1, t2))
    ensures ws != [] && (forall w | w in ws :: t1 <= w.stamp) && !EvalWitness(d, ws).outcome.Throw? ==>
              SameButError(EvalWitness(d, ws).data, EvalWitness(EvalSchedule(d, t1), ws).data)
  {
    InitQueue(cfg);
    RunKeepsQueue(InitVM(cfg).value, events);
    PollTwice(d, t1, t2);
    if ws != [] && (forall w | w in ws :: t1 <= w.stamp) {
      PollThenEval(d, t1, ws);
    }
  }
}
