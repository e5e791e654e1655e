/**
 The clock and the schedule: in a machine with an accepted schedule, a scheduled action is
 never refused for its time.
 */
module Timing {
  import opened Wrappers
  import opened Text
  import opened Machine
  import opened Frames
  import opened Polling
  import Sorting

  /** The proposal check on a schedule. It bounds the timers from above only. */
  predicate CheckSchedule(duration: int, pathnames: seq<string>, schedule: seq<Task>) {
    forall task | task in schedule ::
      && task.timer < duration
      && CheckRegex(VALID_ACTIONS, task.actions)
      && CheckRegex(pathnames, task.paths)
  }

  /** The check passes exactly the schedules of tasks in time, of known actions on known paths. */
  lemma CheckScheduleIff(duration: int, pathnames: seq<string>, schedule: seq<Task>)
    ensures CheckSchedule(duration, pathnames, schedule) <==>
              forall task | task in schedule ::
                && task.timer < duration
                && (forall action | action in TaskActions(task) :: action in VALID_ACTIONS)
                && forall path | path in GetAccessList(task.paths, pathnames).wlist :: path in pathnames
  {
    forall task | task in schedule
      ensures CheckRegex(VALID_ACTIONS, task.actions) <==> forall a | a in TaskActions(task) :: a in VALID_ACTIONS
      ensures CheckRegex(pathnames, task.paths)
         <==> forall p | p in GetAccessList(task.paths, pathnames).wlist :: p in pathnames
    {
      CheckRegexIff(VALID_ACTIONS, task.actions);
      CheckRegexIff(pathnames, task.paths);
    }
  }

  ghost predicate NonNegative(schedule: seq<Task>) {
    forall task | task in schedule :: 0 <= task.timer
  }

  /** Every pending task lies between the last commit and the expiration. */
  ghost predicate OnTime(d: MachineData) {
    && QueueOk(d)
    && forall task | task in d.tasks :: d.commitAt <= DueAt(d, task) < d.expiresAt
  }

  /* ---- Tasks ---- */

  lemma {:induction false} RunPathsClock(d: MachineData, task: Task, action: string, plist: seq<string>)
    requires d.commitAt <= DueAt(d, task)
    ensures RunPaths(d, task, action, plist).data.commitAt <= DueAt(d, task)
    decreases |plist|
  {
    if plist != [] {
      var input := TaskInput(d, task, action, Some(plist[0]));
      UpdateCommits(d, input, ByTask(task));
      RunPathsClock(Update(d, input, ByTask(task)).data, task, action, plist[1..]);
    }
  }

  /** However much of a task has been run, the rest of it still passes the stamp check. */
  lemma {:induction false} TaskNeverLate(d: MachineData, task: Task, alist: seq<string>, plist: seq<string>)
    requires CheckUpdateStamp(d, DueAt(d, task)).Done?
    ensures CheckUpdateStamp(RunActions(d, task, alist, plist), DueAt(d, task)).Done?
    decreases |alist|
  {
    if alist != [] {
      var next;
      if IsPathAction(alist[0]) {
        RunPathsClock(d, task, alist[0], plist);
        RunPathsCommits(d, task, alist[0], plist);
        next := RunPaths(d, task, alist[0], plist).data;
      } else {
        var input := TaskInput(d, task, alist[0], None);
        UpdateCommits(d, input, ByTask(task));
        next := Update(d, input, ByTask(task)).data;
      }
      TaskNeverLate(next, task, alist[1..], plist);
    }
  }

  lemma HeadOnTime(d: MachineData)
    requires OnTime(d) && d.tasks != []
    ensures OnTime(Shift(RunTask(d, d.tasks[0])))
  {
    var task := d.tasks[0];
    RunTaskCommits(d, task);
    TaskNeverLate(d, task, TaskActions(task), TaskPaths(task, d.state.paths));
    var next := Shift(RunTask(d, task));
    QueueTail(d, next);
    assert forall other | other in next.tasks :: other in d.tasks;
  }

  lemma {:induction false} DrainOnTime(d: MachineData, stopAt: int)
    requires OnTime(d)
    ensures OnTime(Drain(d, stopAt))
    decreases |d.tasks|
  {
    if d.tasks != [] {
      RunTaskCommits(d, d.tasks[0]);
      HeadOnTime(d);
      DrainOnTime(Shift(RunTask(d, d.tasks[0])), stopAt);
    }
  }

  /** After a schedule run with no output, what is pending is later than the stop. */
  lemma ScheduleOnTime(d: MachineData, stopAt: int)
    requires OnTime(d) && d.output.None?
    ensures var d' := RunSchedule(d, stopAt);
            OnTime(d') && (d'.output.None? ==> forall task | task in d'.tasks :: stopAt < DueAt(d', task))
  {
    ScheduleDrains(d, stopAt);
    DrainOnTime(d, stopAt);
    var _ := DrainLeavesLater(d, stopAt);
  }

  /* ---- Runs ---- */

  lemma RunProgramOnTime(d: MachineData, w: WitnessData)
    requires OnTime(d) && forall task | task in d.tasks :: w.stamp < DueAt(d, task)
    ensures OnTime(RunProgram(d, w).data)
  {
    RunProgramLater(d, w);
    var d' := RunProgram(d, w).data;
    assert d'.commitAt == d.commitAt || d'.commitAt == w.stamp;
  }

  lemma {:induction false} EvalStackOnTime(d: MachineData, stack: seq<WitnessData>)
    requires OnTime(d) && d.output.None? && (d.output.Some? ==> d.closed)
    ensures OnTime(EvalStack(d, stack).data)
    decreases |stack|
  {
    if stack != [] {
      ScheduleOnTime(d, stack[0].stamp);
      RunTasksCommits(d, GetTasks(d, stack[0].stamp));
      var timed := RunSchedule(d, stack[0].stamp);
      if !timed.closed {
        RunProgramOnTime(timed, stack[0]);
        RunProgramLater(timed, stack[0]);
        var next := RunProgram(timed, stack[0]);
        if next.outcome.Done? && !next.data.closed {
          EvalStackOnTime(next.data, stack[1..]);
        }
      }
    }
  }

  lemma ApplyOnTime(d: MachineData, event: Event)
    requires OnTime(d)
    ensures OnTime(Apply(d, event).data)
  {
    if d.output.None? {
      match event {
        case Statements(ws) => EvalStackOnTime(d.(error := None), GetStatements(ws));
        case Poll(t) => ScheduleOnTime(d, t);
      }
    }
  }

  lemma {:induction false} RunOnTime(d: MachineData, events: seq<Event>)
    requires OnTime(d)
    ensures OnTime(Run(d, events))
    decreases |events|
  {
    if events != [] {
      ApplyOnTime(d, events[0]);
      RunOnTime(Apply(d, events[0]).data, events[1..]);
    }
  }

  lemma InitOnTime(cfg: MachineConfig)
    requires InitVM(cfg).Some?
    requires CheckSchedule(cfg.expiresAt - cfg.activeAt, cfg.pathnames, cfg.schedule) && NonNegative(cfg.schedule)
    ensures OnTime(InitVM(cfg).value)
  {
    InitQueue(cfg);
    var d := InitVM(cfg).value;
    forall task | task in d.tasks
      ensures task in cfg.schedule
    {
      assert task in multiset(cfg.schedule);
    }
  }

  /** A poll that has run the first `k` tasks without an output is still in time for the others. */
  lemma {:induction false} QueueStaysOnTime(d: MachineData, k: nat)
    requires OnTime(d) && k <= |d.tasks| && RunTasks(d, d.tasks[..k]).output.None?
    ensures var mid := RunTasks(d, d.tasks[..k]);
            OnTime(mid) && mid.tasks == d.tasks[k..] && mid.activeAt == d.activeAt
    decreases k
  {
    if k > 0 {
      var due := d.tasks[..k];
      var next := Shift(RunTask(d, d.tasks[0]));
      assert due[0] == d.tasks[0];
      RunTaskCommits(d, d.tasks[0]);
      HeadOnTime(d);
      assert due[1..] == next.tasks[..k - 1];
      QueueStaysOnTime(next, k - 1);
    }
  }

  /**
   In every reachable machine, and at every moment of a poll of it, each pending task is due
   no earlier than the last commit and before expiration, so the stamp check accepts it; and
   it goes on doing so however much of the task has already been run. The moments are those
   after the first `k` tasks of the queue; with an output, no more tasks are run.
   */
  lemma {:induction false} NoTaskRefused(
    cfg: MachineConfig, events: seq<Event>, d: MachineData, k: nat, task: Task, alist: seq<string>,
    plist: seq<string>)
    requires IsRun(cfg, events, d) && k <= |d.tasks| && RunTasks(d, d.tasks[..k]).output.None?
    requires CheckSchedule(cfg.expiresAt - cfg.activeAt, cfg.pathnames, cfg.schedule) && NonNegative(cfg.schedule)
    requires task in d.tasks[k..]
    ensures var mid := RunTasks(d, d.tasks[..k]);
            && mid.commitAt <= DueAt(mid, task) < mid.expiresAt
            && CheckUpdateStamp(RunActions(mid, task, alist, plist), DueAt(mid, task)).Done?
  {
    InitOnTime(cfg);
    RunOnTime(InitVM(cfg).value, events);
    QueueStaysOnTime(d, k);
    TaskNeverLate(RunTasks(d, d.tasks[..k]), task, alist, plist);
  }

  /* ---- A negative timer ---- */

  /** A schedule with a negative timer, and a task that closes later on. */
  function Overdue(at: int, duration: int, late: Task, task: Task, path: string, vmid: string): MachineConfig {
    MachineConfig(at, "cvm", at + duration, [path], [], [late, task], vmid)
  }

  /** Such a schedule passes the check, and two polls at the same time run its closing task twice. */
  lemma NegativeTimerRepeats(at: int, duration: int, late: Task, task: Task, path: string, vmid: string, t: int)
    requires late.timer < 0 <= task.timer < duration && at + task.timer <= t
    requires late.actions == "dispute" && task.actions == "close" && late.paths == task.paths == path && '|' !in path
    ensures var cfg := Overdue(at, duration, late, task, path, vmid);
            && CheckSchedule(cfg.expiresAt - cfg.activeAt, cfg.pathnames, cfg.schedule) && InitVM(cfg).Some?
            && var once := EvalSchedule(InitVM(cfg).value, t);
            var twice := EvalSchedule(once, t);
            once.step == 1 && twice.step == 2 && |twice.log| == 2 && twice.log[0] == twice.log[1]
  {
    var cfg := Overdue(at, duration, late, task, path, vmid);
    OverdueStart(at, duration, late, task, path, vmid);
    var d := InitVM(cfg).value;
    ClosedTwice(d, late, task, t);
    OverdueChecked(duration, late, task, path);
  }

  lemma OverdueChecked(duration: int, late: Task, task: Task, path: string)
    requires late.timer < duration && task.timer < duration
    requires late.actions == "dispute" && task.actions == "close" && late.paths == task.paths == path && '|' !in path
    ensures CheckSchedule(duration, [path], [late, task])
  {
    PathActionsListed("dispute");
    PathActionsListed("close");
  }

  lemma OverdueStart(at: int, duration: int, late: Task, task: Task, path: string, vmid: string)
    requires late.timer < task.timer
    ensures var start := InitVM(Overdue(at, duration, late, task, path, vmid));
            && start.Some? && start.value.tasks == [late, task]
            && start.value.activeAt == start.value.updatedAt == start.value.commitAt == at
            && start.value.expiresAt == at + duration
            && start.value.output.None? && start.value.step == 0 && start.value.log == []
  {
    var cfg := Overdue(at, duration, late, task, path, vmid);
    SortedPair(late, task);
    assert [path][1..] == [];
    assert InitVMState([], []) == Some([]);
    assert InitPathState(path, []) == Some(Opened);
    assert InitVMState([path], []).Some?;
  }

  lemma SortedPair(late: Task, task: Task)
    requires late.timer < task.timer
    ensures InitTasks([late, task]) == [late, task]
  {
    assert [late, task][1..] == [task] && [task][1..] == [];
    assert Sorting.SortBy([task], TaskTimer) == [task];
  }

  /** Behind one overdue task, a task that closes is run by every poll. */
  lemma ClosedTwice(d: MachineData, late: Task, task: Task, t: int)
    requires d.tasks == [late, task] && DueAt(d, late) < d.updatedAt <= DueAt(d, task) <= t
    requires task.actions == "close" && CheckUpdateStamp(d, DueAt(d, task)).Done? && d.output.None?
    ensures var once := EvalSchedule(d, t);
            var twice := EvalSchedule(once, t);
            && once.step == d.step + 1 && twice.step == d.step + 2
            && |twice.log| == |d.log| + 2 && twice.log[|d.log|] == twice.log[|d.log| + 1]
  {
    var once := Shift(RunTask(d, task));
    ClosingTask(d, task);
    OneDue(d, [late], task, t);
    ClosingTask(once, task);
    assert d.tasks[1..] == [task];
    OneDue(once, [], task, t);
  }

  lemma {:induction false} OneDue(d: MachineData, overdue: seq<Task>, task: Task, t: int)
    requires d.tasks == overdue + [task] && |overdue| <= 1 && d.updatedAt <= DueAt(d, task) <= t
    requires forall late | late in overdue :: DueAt(d, late) < d.updatedAt
    ensures RunSchedule(d, t) == Shift(RunTask(d, task))
  {
    var keep := (other: Task) => IsDue(d, other, t);
    assert [task][1..] == [] && Filter([task], keep) == [task];
    if overdue == [] {
      assert d.tasks == [task];
    } else {
      assert overdue[0] in overdue && d.tasks[0] == overdue[0] && d.tasks[1..] == [task];
      assert Filter(d.tasks, keep) == Filter(d.tasks[1..], keep);
    }
    var next := Shift(RunTask(d, task));
    assert GetTasks(d, t) == Filter(d.tasks, keep) == [task];
    assert RunTasks(next, [task][1..]) == next;
  }

  /** A task that closes commits once, whatever its paths. */
  lemma ClosingTask(d: MachineData, task: Task)
    requires task.actions == "close" && CheckUpdateStamp(d, DueAt(d, task)).Done? && d.output.None?
    ensures RunTask(d, task)
        == Committed(d, TaskInput(d, task, "close", None), ByTask(task), d.state.(status := ClosedStatus))
  {
    assert "*"[0] == '*' && "close"[0] == 'c';
    assert TaskActions(task) == ["close"] && ["close"][1..] == [];
  }
}
