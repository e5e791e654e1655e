/**
 Tasks that commit nothing, told from the machine before they run, and what they decide: an
 audit still accepts a machine that was polled after its last statement exactly when every
 task the poll ran was idle.
 */
module Idle {
  import opened Wrappers
  import opened Machine
  import opened Frames
  import opened Polling
  import opened Timing
  import opened Liveness
  import Reachable
  import Audit

  /* ---- Which tasks are idle ---- */

  /** None of the paths is known to the machine. */
  predicate NoneKnown(d: MachineData, plist: seq<string>) {
    forall p | p in plist :: StateOf(d.state.paths, p).None?
  }

  /** No known path of the list is left to dispute. */
  predicate NoneToDispute(d: MachineData, plist: seq<string>) {
    forall p | p in plist :: StateOf(d.state.paths, p).None? || StateOf(d.state.paths, p) == Some(Disputed)
  }

  /** An action that is refused on every path of the list. */
  predicate IdleAction(d: MachineData, action: string, plist: seq<string>) {
    match VerbOf(action)
    case Close => false
    case Spend => NoneOpen(d, plist)
    case Lock => NoneOpen(d, plist)
    case Dispute => NoneToDispute(d, plist)
    case Resolve => !d.state.status.DisputedStatus? || NoneKnown(d, plist)
    case _ => true
  }

  predicate IdleActions(d: MachineData, alist: seq<string>, plist: seq<string>) {
    forall a | a in alist :: IdleAction(d, a, plist)
  }

  /** Every action of the task is refused, as the machine stands. */
  predicate IdleTask(d: MachineData, task: Task) {
    IdleActions(d, TaskActions(task), TaskPaths(task, d.state.paths))
  }

  /** A machine without an output or a spent path, in time for the task. */
  ghost predicate Running(d: MachineData, task: Task) {
    && d.output.None? && CheckUpdateStamp(d, DueAt(d, task)).Done?
    && forall i | 0 <= i < |d.state.paths| :: !d.state.paths[i].state.Spent?
  }

  /* ---- One action ---- */

  /** A path action that is refused on one path. */
  predicate Refuses(d: MachineData, action: string, p: string) {
    match StateOf(d.state.paths, p)
    case None => true
    case Some(s) => RunPathAction(action, s, d.state.status).Failure?
  }

  lemma RefusesIff(d: MachineData, task: Task, action: string, plist: seq<string>)
    requires Running(d, task) && IsPathAction(action)
    ensures IdleAction(d, action, plist) <==> forall p | p in plist :: Refuses(d, action, p)
  {
    forall p | p in plist
      ensures Refuses(d, action, p) <==> IdleAction(d, action, [p])
    {
      assert p in [p];
      var i := FindPath(d.state.paths, p);
      assert i.Some? ==> !d.state.paths[i.value].state.Spent?;
    }
  }

  lemma StepRefused(d: MachineData, task: Task, action: string, p: string)
    requires Running(d, task) && IsPathAction(action)
    ensures var next := Update(d, TaskInput(d, task, action, Some(p)), ByTask(task));
            if Refuses(d, action, p) then !next.outcome.Done? && next.data == d
            else next.outcome.Done? && |next.data.log| == |d.log| + 1
  {
  }

  lemma {:induction false} PathsIdle(d: MachineData, task: Task, action: string, plist: seq<string>)
    requires Running(d, task) && IsPathAction(action)
    ensures if forall p | p in plist :: Refuses(d, action, p) then RunPaths(d, task, action, plist) == Flow(d, false)
            else |RunPaths(d, task, action, plist).data.log| > |d.log|
    decreases |plist|
  {
    if plist != [] {
      StepRefused(d, task, action, plist[0]);
      var next := Update(d, TaskInput(d, task, action, Some(plist[0])), ByTask(task)).data;
      assert forall p | p in plist :: p == plist[0] || p in plist[1..];
      if Refuses(d, action, plist[0]) {
        PathsIdle(d, task, action, plist[1..]);
      } else {
        RunPathsCommits(next, task, action, plist[1..]);
      }
    }
  }

  /* ---- One task ---- */

  lemma CloseGrows(d: MachineData, task: Task, action: string)
    requires CheckUpdateStamp(d, DueAt(d, task)).Done? && !IsPathAction(action)
    ensures var next := Update(d, TaskInput(d, task, action, None), ByTask(task));
            if VerbOf(action).Close? then |next.data.log| == |d.log| + 1 else next.data == d
  {
  }

  lemma {:induction false} ActionsIdle(d: MachineData, task: Task, alist: seq<string>, plist: seq<string>)
    requires Running(d, task)
    ensures if IdleActions(d, alist, plist) then RunActions(d, task, alist, plist) == d
            else |RunActions(d, task, alist, plist).log| > |d.log|
    decreases |alist|
  {
    if alist != [] {
      var action := alist[0];
      assert IdleActions(d, alist, plist) <==> IdleAction(d, action, plist) && IdleActions(d, alist[1..], plist) by {
        assert alist == [action] + alist[1..];
      }
      if IsPathAction(action) {
        RefusesIff(d, task, action, plist);
        PathsIdle(d, task, action, plist);
        RunActionsCommits(RunPaths(d, task, action, plist).data, task, alist[1..], plist);
      } else {
        CloseGrows(d, task, action);
        RunActionsCommits(Update(d, TaskInput(d, task, action, None), ByTask(task)).data, task, alist[1..], plist);
      }
      if IdleAction(d, action, plist) {
        ActionsIdle(d, task, alist[1..], plist);
      }
    }
  }

  /** A task leaves the machine as it was exactly when it is idle, and otherwise commits. */
  lemma {:induction false} TaskIdleIff(d: MachineData, task: Task)
    requires Running(d, task)
    ensures if IdleTask(d, task) then RunTask(d, task) == d else |RunTask(d, task).log| > |d.log|
  {
    ActionsIdle(d, task, TaskActions(task), TaskPaths(task, d.state.paths));
  }

  /* ---- A poll ---- */

  /** Every task due by the stop is idle, as the machine stands. */
  predicate AllIdle(d: MachineData, stopAt: int) {
    forall task | task in d.tasks && DueAt(d, task) <= stopAt :: IdleTask(d, task)
  }

  ghost predicate NoneSpent(d: MachineData) {
    forall i | 0 <= i < |d.state.paths| :: !d.state.paths[i].state.Spent?
  }

  lemma {:induction false} DrainIdleIff(d: MachineData, stopAt: int)
    requires OnTime(d) && d.output.None? && NoneSpent(d)
    ensures Drain(d, stopAt).log == d.log <==> AllIdle(d, stopAt)
    decreases |d.tasks|
  {
    if d.tasks != [] {
      var head := d.tasks[0];
      HeadIsLeast(d.tasks);
      if DueAt(d, head) <= stopAt {
        var next := Shift(RunTask(d, head));
        TaskIdleIff(d, head);
        HeadOnTime(d);
        DrainGrows(d, stopAt);
        if IdleTask(d, head) {
          assert next == d.(tasks := d.tasks[1..]);
          DrainIdleIff(next, stopAt);
          IdleHead(d, next, stopAt);
        }
      }
    }
  }

  lemma IdleHead(d: MachineData, next: MachineData, stopAt: int)
    requires d.tasks != [] && next == d.(tasks := d.tasks[1..]) && IdleTask(d, d.tasks[0])
    ensures AllIdle(d, stopAt) <==> AllIdle(next, stopAt)
  {
    assert d.tasks == [d.tasks[0]] + d.tasks[1..];
    assert forall task :: IdleTask(next, task) <==> IdleTask(d, task);
  }

  /** What the head of the queue commits stays in the log. */
  lemma DrainGrows(d: MachineData, stopAt: int)
    requires OnTime(d) && d.tasks != [] && DueAt(d, d.tasks[0]) <= stopAt
    ensures |RunTask(d, d.tasks[0]).log| <= |Drain(d, stopAt).log|
  {
    RunTaskCommits(d, d.tasks[0]);
    var next := Shift(RunTask(d, d.tasks[0]));
    HeadOnTime(d);
    ScheduleDrains(next, stopAt);
    RunTasksCommits(next, GetTasks(next, stopAt));
  }

  /** A poll of any machine in a run commits nothing exactly when it has an output or all its due tasks are idle. */
  lemma {:induction false} PollIdleIff(cfg: MachineConfig, events: seq<Event>, d: MachineData, t: int)
    requires IsRun(cfg, events, d)
    requires CheckSchedule(cfg.expiresAt - cfg.activeAt, cfg.pathnames, cfg.schedule) && NonNegative(cfg.schedule)
    ensures EvalSchedule(d, t).step == d.step <==> d.output.Some? || AllIdle(d, t)
  {
    if d.output.None? {
      var start := Reachable.Reached(cfg, events);
      InitOnTime(cfg);
      RunOnTime(InitVM(cfg).value, events);
      ScheduleDrains(d, t);
      RunTasksCommits(d, GetTasks(d, t));
      DrainIdleIff(d, t);
    }
  }

  /**
   One more poll of a machine that the audit accepts, with whatever statements: the audit
   still accepts it exactly when it had an output already or every pending task due by then
   was idle.
   */
  lemma {:induction false} AuditAfterPollIff(
    cfg: MachineConfig, events: seq<Event>, machine: MachineData, ws: seq<WitnessData>, t: int)
    requires IsRun(cfg, events, machine) && Audit.ExecutionMatches(cfg, machine, ws)
    requires CheckSchedule(cfg.expiresAt - cfg.activeAt, cfg.pathnames, cfg.schedule) && NonNegative(cfg.schedule)
    ensures Audit.ExecutionMatches(cfg, EvalSchedule(machine, t), ws) <==> machine.output.Some? || AllIdle(machine, t)
  {
    Audit.PollAfterAudit(cfg, machine, ws, t);
    PollIdleIff(cfg, events, machine, t);
  }

  /** For a run of single statements and polls that ends in a statement, replayed by its statements. */
  lemma {:induction false} AuditRunAfterPollIff(cfg: MachineConfig, events: seq<Event>, machine: MachineData, t: int)
    requires IsRun(cfg, events, machine)
    requires CheckSchedule(cfg.expiresAt - cfg.activeAt, cfg.pathnames, cfg.schedule) && NonNegative(cfg.schedule)
    requires Audit.Singles(events) && Audit.PollsPrecede(events) && Audit.NeverThrows(InitVM(cfg).value, events)
    requires events == [] || events[|events| - 1].Statements?
    ensures Audit.ExecutionMatches(cfg, EvalSchedule(machine, t), Audit.StatementsOf(events))
       <==> machine.output.Some? || AllIdle(machine, t)
  {
    Audit.AuditAccepts(cfg, events);
    AuditAfterPollIff(cfg, events, machine, Audit.StatementsOf(events), t);
  }
}
