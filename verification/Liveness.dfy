/**
 What a schedule settles: tasks that spend or resolve, and tasks that close first.
 */
module Liveness {
  import opened Wrappers
  import opened Text
  import opened Machine
  import opened Frames
  import opened Invariants
  import opened Reachable
  import opened Polling
  import opened Timing

  /** The state of a named path. */
  function StateOf(paths: seq<PathEntry>, name: string): Option<PathState> {
    match FindPath(paths, name)
    case None => None
    case Some(i) => Some(paths[i].state)
  }

  predicate NoneOpen(d: MachineData, plist: seq<string>) {
    forall p | p in plist :: StateOf(d.state.paths, p) != Some(Opened)
  }

  /** A machine that has not settled, about to run a task in its time on paths it has. */
  ghost predicate Unsettled(d: MachineData, task: Task, plist: seq<string>) {
    && d.output.None?
    && CheckUpdateStamp(d, DueAt(d, task)).Done?
    && (forall i | 0 <= i < |d.state.paths| :: !d.state.paths[i].state.Spent?)
    && (forall p | p in plist :: FindPath(d.state.paths, p).Some?)
  }

  lemma SpendStep(d: MachineData, task: Task, plist: seq<string>)
    requires Unsettled(d, task, plist) && plist != []
    ensures var next := Update(d, TaskInput(d, task, "spend", Some(plist[0])), ByTask(task));
            if StateOf(d.state.paths, plist[0]) == Some(Opened) then next.outcome.Done? && next.data.output.Some?
            else !next.outcome.Done? && next.data == d
  {
    var i := FindPath(d.state.paths, plist[0]).value;
    assert !d.state.paths[i].state.Spent?;
  }

  lemma {:induction false} SpendSettles(d: MachineData, task: Task, plist: seq<string>)
    requires Unsettled(d, task, plist)
    ensures var flow := RunPaths(d, task, "spend", plist);
            && (flow.stop <==> !NoneOpen(d, plist))
            && (flow.stop ==> flow.data.output.Some?)
            && (!flow.stop ==> flow.data == d)
    decreases |plist|
  {
    if plist != [] {
      SpendStep(d, task, plist);
      if StateOf(d.state.paths, plist[0]) != Some(Opened) {
        SpendSettles(d, task, plist[1..]);
      }
    }
  }

  lemma {:induction false} ResolveSettles(d: MachineData, task: Task, plist: seq<string>)
    requires Unsettled(d, task, plist) && plist != []
    ensures var flow := RunPaths(d, task, "resolve", plist);
            && (flow.stop <==> d.state.status.DisputedStatus?)
            && (flow.stop ==> flow.data.output.Some?)
            && (!flow.stop ==> flow.data == d)
    decreases |plist|
  {
    if !d.state.status.DisputedStatus? && |plist| > 1 {
      ResolveSettles(d, task, plist[1..]);
    }
  }

  lemma {:induction false} ActionsSettle(d: MachineData, task: Task, alist: seq<string>, plist: seq<string>)
    requires Unsettled(d, task, plist) && plist != []
    requires forall a | a in alist :: a == "spend" || a == "resolve"
    ensures var d' := RunActions(d, task, alist, plist);
            && (d'.output.None? ==> d' == d)
            && (d'.output.None? <==>
                  && ("spend" in alist ==> NoneOpen(d, plist))
                  && ("resolve" in alist ==> !d.state.status.DisputedStatus?))
    decreases |alist|
  {
    if alist != [] {
      var action := alist[0];
      assert action in alist && (forall a | a in alist[1..] :: a in alist);
      assert forall a | a in alist :: a == action || a in alist[1..];
      if action == "spend" {
        SpendSettles(d, task, plist);
      } else {
        ResolveSettles(d, task, plist);
      }
      if !RunPaths(d, task, action, plist).stop {
        ActionsSettle(d, task, alist[1..], plist);
      }
    }
  }

  ghost predicate AllLocked(d: MachineData, plist: seq<string>) {
    forall p | p in plist :: StateOf(d.state.paths, p) == Some(Locked)
  }

  /** A task that offers both actions on at least one path, and no other action. */
  predicate CatchAll(task: Task, pathnames: seq<string>) {
    var alist, plist := TaskActions(task), GetAccessList(task.paths, pathnames).wlist;
    && "spend" in alist && "resolve" in alist && (forall a | a in alist :: a == "spend" || a == "resolve")
    && plist != [] && forall p | p in plist :: p in pathnames
  }

  /**
   A catch-all task settles the machine on one of its paths, unless every one of them is
   locked and no path at all is disputed; in that case it changes nothing.
   */
  lemma {:induction false} CatchAllSettles(cfg: MachineConfig, start: seq<PathEntry>, d: MachineData, task: Task)
    requires Inv(cfg, start, d) && d.output.None? && Closes(d.log) == 0
    requires CatchAll(task, cfg.pathnames) && CheckUpdateStamp(d, DueAt(d, task)).Done?
    ensures var plist := GetAccessList(task.paths, cfg.pathnames).wlist;
            var d' := RunTask(d, task);
            && (d'.output.None? <==> AllLocked(d, plist) && !SomePathIs(d.state.paths, Disputed))
            && (d'.output.None? ==> d' == d)
  {
    var paths, plist := d.state.paths, TaskPaths(task, d.state.paths);
    forall p | p in plist
      ensures FindPath(paths, p).Some?
    {
      NamesFound(paths, p);
    }
    ActionsSettle(d, task, TaskActions(task), plist);
    if NoneOpen(d, plist) && !SomePathIs(paths, Disputed) {
      forall p | p in plist
        ensures StateOf(paths, p) == Some(Locked)
      {
        var i := FindPath(paths, p).value;
        assert !paths[i].state.Spent? && !paths[i].state.Disputed?;
      }
    }
  }

  lemma {:induction false} ClosesPrefix(log: seq<LogEntry>, log': seq<LogEntry>)
    requires log <= log'
    ensures Closes(log) <= Closes(log')
    decreases |log'|
  {
    if |log| < |log'| {
      ClosesPrefix(log, log'[..|log'| - 1]);
    } else {
      assert log == log';
    }
  }

  lemma DrainStep(d: MachineData, stopAt: int) returns (next: MachineData)
    requires OnTime(d) && d.tasks != [] && DueAt(d, d.tasks[0]) <= stopAt && Drain(d, stopAt).output.None?
    ensures next == Shift(RunTask(d, d.tasks[0])) && next.tasks == d.tasks[1..] && OnTime(next) && SameConfig(d, next)
    ensures next.output.None? && Drain(d, stopAt) == Drain(next, stopAt)
    ensures d.log <= next.log <= Drain(d, stopAt).log
  {
    RunTaskCommits(d, d.tasks[0]);
    next := Shift(RunTask(d, d.tasks[0]));
    HeadOnTime(d);
    ScheduleDrains(next, stopAt);
    RunTasksCommits(next, GetTasks(next, stopAt));
  }

  /** What holds at the moment a catch-all task is reached and cannot settle the machine. */
  ghost predicate Stuck(cfg: MachineConfig, mid: MachineData, task: Task) {
    && mid.output.None?
    && AllLocked(mid, GetAccessList(task.paths, cfg.pathnames).wlist)
    && !SomePathIs(mid.state.paths, Disputed)
  }

  lemma HeadStuck(cfg: MachineConfig, start: seq<PathEntry>, d: MachineData, task: Task)
    requires Inv(cfg, start, d) && OnTime(d) && d.output.None? && Closes(d.log) == 0
    requires task in d.tasks && CatchAll(task, cfg.pathnames) && Shift(RunTask(d, task)).output.None?
    ensures Stuck(cfg, d, task)
  {
    CatchAllSettles(cfg, start, d, task);
  }

  lemma {:induction false} DrainSettles(
    cfg: MachineConfig, start: seq<PathEntry>, d: MachineData, task: Task, stopAt: int) returns (k: nat)
    requires Inv(cfg, start, d) && OnTime(d) && d.output.None?
    requires task in d.tasks && DueAt(d, task) <= stopAt && CatchAll(task, cfg.pathnames)
    requires Drain(d, stopAt).output.None? && Closes(Drain(d, stopAt).log) == 0
    ensures k < |d.tasks| && d.tasks[k] == task && Stuck(cfg, RunTasks(d, d.tasks[..k]), task)
    decreases |d.tasks|
  {
    var head := d.tasks[0];
    HeadIsLeast(d.tasks);
    var next := DrainStep(d, stopAt);
    if head == task {
      k := 0;
      ClosesPrefix(d.log, Drain(d, stopAt).log);
      HeadStuck(cfg, start, d, task);
      assert RunTasks(d, d.tasks[..0]) == d;
    } else {
      RunTaskKeeps(cfg, start, d, head);
      ShiftKeeps(cfg, start, RunTask(d, head));
      k := DrainSettles(cfg, start, next, task, stopAt);
      RunTasksHead(d, d.tasks, k);
      k := k + 1;
    }
  }

  lemma RunTasksHead(d: MachineData, tasks: seq<Task>, k: nat)
    requires k < |tasks| && Shift(RunTask(d, tasks[0])).output.None?
    ensures RunTasks(d, tasks[..k + 1]) == RunTasks(Shift(RunTask(d, tasks[0])), tasks[1..][..k])
  {
    var due := tasks[..k + 1];
    assert due[0] == tasks[0] && due[1..] == tasks[1..][..k];
  }

  /**
   If a poll past the due time of a pending catch-all task outputs nothing, then at the
   moment the task was reached every path it names was locked and no path was disputed.
   */
  lemma {:induction false} CatchAllLiveness(
    cfg: MachineConfig, events: seq<Event>, d: MachineData, task: Task, stopAt: int) returns (k: nat)
    requires IsRun(cfg, events, d)
    requires CheckSchedule(cfg.expiresAt - cfg.activeAt, cfg.pathnames, cfg.schedule) && NonNegative(cfg.schedule)
    requires task in d.tasks && d.output.None? && DueAt(d, task) <= stopAt
    requires CatchAll(task, cfg.pathnames) && Closes(EvalSchedule(d, stopAt).log) == 0
    ensures || EvalSchedule(d, stopAt).output.Some?
            || (k < |d.tasks| && d.tasks[k] == task && Stuck(cfg, RunTasks(d, d.tasks[..k]), task))
  {
    var start := Reached(cfg, events);
    InitOnTime(cfg);
    RunOnTime(InitVM(cfg).value, events);
    ScheduleDrains(d, stopAt);
    k := 0;
    if EvalSchedule(d, stopAt).output.None? {
      k := DrainSettles(cfg, start, d, task, stopAt);
    }
  }

  /* ---- Any list of actions ---- */

  /** A machine about to run a task in its time, neither settled nor marked as spent. */
  ghost predicate Live(d: MachineData, task: Task, plist: seq<string>) {
    Unsettled(d, task, plist) && !d.state.status.SpentStatus?
  }

  predicate AllDisputed(d: MachineData, plist: seq<string>) {
    forall p | p in plist :: StateOf(d.state.paths, p) == Some(Disputed)
  }

  /**
   Whether a list of actions settles a machine on some path, from three facts about the
   machine before the task: whether one of the paths is open, whether all of them are
   disputed, and the status. A close forgets a dispute, and a lock after a close ends the
   machine on the path it locks.
   */
  function Settles(alist: seq<string>, open: bool, allDisputed: bool, status: VMStatus): bool {
    if alist == [] then false
    else
      var rest := alist[1..];
      match VerbOf(alist[0])
      case Close => Settles(rest, open, allDisputed, ClosedStatus)
      case Spend => open || Settles(rest, open, allDisputed, status)
      case Resolve => status.DisputedStatus? || Settles(rest, open, allDisputed, status)
      case Lock => (open && status.ClosedStatus?) || Settles(rest, false, allDisputed, status)
      case Dispute => Settles(rest, false, true, if allDisputed then status else DisputedStatus)
      case _ => Settles(rest, open, allDisputed, status)
  }

  lemma StateOfUpdate(paths: seq<PathEntry>, i: nat, s: PathState, p: string)
    requires i < |paths| && FindPath(paths, paths[i].name) == Some(i)
    ensures StateOf(paths[i := PathEntry(paths[i].name, s)], p) ==
        if p == paths[i].name
        then Some(s)
        else StateOf(paths, p)
  {
    var paths' := paths[i := PathEntry(paths[i].name, s)];
    assert forall k | 0 <= k < |paths| :: paths'[k].name == paths[k].name;
    assert FindPath(paths', p) == FindPath(paths, p);
  }

  /** A path action that is refused changes nothing. */
  lemma RefusedStep(d: MachineData, task: Task, plist: seq<string>, action: string, name: string)
    requires Live(d, task, plist) && name in plist && IsPathAction(action)
    requires RunPathAction(action, StateOf(d.state.paths, name).value, d.state.status).Failure?
    ensures var next := Update(d, TaskInput(d, task, action, Some(name)), ByTask(task));
            !next.outcome.Done? && next.data == d
  {}

  /** A path action that locks or disputes moves one path, and goes on unless the machine was closed. */
  lemma MovingStep(d: MachineData, task: Task, plist: seq<string>, action: string, name: string, to: PathState)
    requires Live(d, task, plist) && name in plist && IsPathAction(action)
    requires RunPathAction(action, StateOf(d.state.paths, name).value, d.state.status) == Success(to) && !to.Spent?
    requires !UpdatePathVMStatus(d.state.status, to).ClosedStatus?
    ensures var next := Update(d, TaskInput(d, task, action, Some(name)), ByTask(task));
            && next.outcome.Done? && Live(next.data, task, plist)
            && next.data.state.status == UpdatePathVMStatus(d.state.status, to)
            && forall p ::
                 StateOf(next.data.state.paths, p) == if p == name then Some(to) else StateOf(d.state.paths, p)
  {
    var i := FindPath(d.state.paths, name).value;
    var next := Update(d, TaskInput(d, task, action, Some(name)), ByTask(task)).data;
    forall p
      ensures StateOf(next.state.paths, p) == if p == name then Some(to) else StateOf(d.state.paths, p)
    {
      StateOfUpdate(d.state.paths, i, to, p);
    }
    forall p | p in plist
      ensures FindPath(next.state.paths, p).Some?
    {
      assert StateOf(next.state.paths, p).Some?;
    }
  }

  /** What locking does to a state, where it is not refused. */
  function AfterLock(was: Option<PathState>): Option<PathState> {
    if was == Some(Opened) then Some(Locked) else was
  }

  lemma {:induction false} LockPaths(d: MachineData, task: Task, plist: seq<string>, rest: seq<string>)
    requires Live(d, task, plist) && (forall p | p in rest :: p in plist) && !d.state.status.ClosedStatus?
    ensures var flow := RunPaths(d, task, "lock", rest);
            && !flow.stop && Live(flow.data, task, plist) && flow.data.state.status == d.state.status
            && forall p :: StateOf(flow.data.state.paths, p)
                        == if p in rest then AfterLock(StateOf(d.state.paths, p)) else StateOf(d.state.paths, p)
    decreases |rest|
  {
    if rest != [] {
      var name := rest[0];
      assert name in rest && forall p :: p in rest <==> p == name || p in rest[1..];
      var was := StateOf(d.state.paths, name).value;
      assert !was.Spent?;
      if was.Opened? {
        MovingStep(d, task, plist, "lock", name, Locked);
        LockPaths(Update(d, TaskInput(d, task, "lock", Some(name)), ByTask(task)).data, task, plist, rest[1..]);
      } else {
        RefusedStep(d, task, plist, "lock", name);
        LockPaths(d, task, plist, rest[1..]);
      }
    }
  }

  /** After a close, locking an open path outputs that path. */
  lemma {:induction false} LockSettlesClosed(d: MachineData, task: Task, plist: seq<string>)
    requires Live(d, task, plist) && d.state.status.ClosedStatus?
    ensures var flow := RunPaths(d, task, "lock", plist);
            && (flow.stop <==> !NoneOpen(d, plist))
            && (flow.stop ==> flow.data.output.Some?)
            && (!flow.stop ==> flow.data == d)
    decreases |plist|
  {
    if plist != [] && StateOf(d.state.paths, plist[0]) != Some(Opened) {
      var was := StateOf(d.state.paths, plist[0]).value;
      assert !was.Spent?;
      RefusedStep(d, task, plist, "lock", plist[0]);
      LockSettlesClosed(d, task, plist[1..]);
    }
  }

  lemma {:induction false} DisputePaths(d: MachineData, task: Task, plist: seq<string>, rest: seq<string>)
    requires Live(d, task, plist) && (forall p | p in rest :: p in plist)
    ensures var flow := RunPaths(d, task, "dispute", rest);
            && !flow.stop && Live(flow.data, task, plist)
            && flow.data.state.status == (if AllDisputed(d, rest) then d.state.status else DisputedStatus)
            && forall p ::
                 StateOf(flow.data.state.paths, p) == if p in rest then Some(Disputed) else StateOf(d.state.paths, p)
    decreases |rest|
  {
    if rest != [] {
      var name := rest[0];
      assert name in rest && forall p :: p in rest <==> p == name || p in rest[1..];
      if StateOf(d.state.paths, name) == Some(Disputed) {
        RefusedStep(d, task, plist, "dispute", name);
        DisputePaths(d, task, plist, rest[1..]);
      } else {
        MovingStep(d, task, plist, "dispute", name, Disputed);
        DisputePaths(Update(d, TaskInput(d, task, "dispute", Some(name)), ByTask(task)).data, task, plist, rest[1..]);
      }
    }
  }

  lemma {:induction false} AlwaysRefused(d: MachineData, task: Task, plist: seq<string>, action: string)
    requires VerbOf(action).Release?
    ensures RunPaths(d, task, action, plist) == Flow(d, false)
    decreases |plist|
  {
    if plist != [] {
      AlwaysRefused(d, task, plist[1..], action);
    }
  }

  lemma CloseStaysLive(d: MachineData, task: Task, plist: seq<string>)
    requires Live(d, task, plist)
    ensures var d' := Update(d, TaskInput(d, task, "close", None), ByTask(task)).data;
            Live(d', task, plist) && d'.state == d.state.(status := ClosedStatus)
  {}

  /** What one action of the list makes of the three facts. */
  lemma {:induction false} ActionsSettleIff(d: MachineData, task: Task, alist: seq<string>, plist: seq<string>)
    requires Live(d, task, plist) && plist != []
    ensures RunActions(d, task, alist, plist).output.Some?
       <==> Settles(alist, !NoneOpen(d, plist), AllDisputed(d, plist), d.state.status)
    decreases |alist|
  {
    if alist != [] {
      assert plist[0] in plist;
      match VerbOf(alist[0]) {
        case Close =>
          CloseStaysLive(d, task, plist);
          var next := Update(d, TaskInput(d, task, "close", None), ByTask(task)).data;
          assert RunActions(d, task, alist, plist) == RunActions(next, task, alist[1..], plist);
          ActionsSettleIff(next, task, alist[1..], plist);
        case Spend =>
          SpendSettles(d, task, plist);
          if NoneOpen(d, plist) {
            assert RunActions(d, task, alist, plist) == RunActions(d, task, alist[1..], plist);
            ActionsSettleIff(d, task, alist[1..], plist);
          }
        case Resolve =>
          ResolveSettles(d, task, plist);
          if !d.state.status.DisputedStatus? {
            assert RunActions(d, task, alist, plist) == RunActions(d, task, alist[1..], plist);
            ActionsSettleIff(d, task, alist[1..], plist);
          }
        case Lock => LockThenRest(d, task, alist, plist);
        case Dispute => DisputeThenRest(d, task, alist, plist);
        case Release =>
          AlwaysRefused(d, task, plist, alist[0]);
          ActionsSettleIff(d, task, alist[1..], plist);
        case _ => ActionsSettleIff(d, task, alist[1..], plist);
      }
    }
  }

  lemma {:induction false} LockThenRest(d: MachineData, task: Task, alist: seq<string>, plist: seq<string>)
    requires Live(d, task, plist) && plist != [] && alist != [] && VerbOf(alist[0]).Lock?
    ensures RunActions(d, task, alist, plist).output.Some?
       <==> Settles(alist, !NoneOpen(d, plist), AllDisputed(d, plist), d.state.status)
    decreases |alist|, 0
  {
    if d.state.status.ClosedStatus? {
      LockSettlesClosed(d, task, plist);
      if NoneOpen(d, plist) {
        assert RunActions(d, task, alist, plist) == RunActions(d, task, alist[1..], plist);
        ActionsSettleIff(d, task, alist[1..], plist);
      }
    } else {
      LockPaths(d, task, plist, plist);
      var next := RunPaths(d, task, "lock", plist).data;
      assert RunActions(d, task, alist, plist) == RunActions(next, task, alist[1..], plist);
      LockedNoneOpen(d, next, plist);
      ActionsSettleIff(next, task, alist[1..], plist);
    }
  }

  lemma {:induction false} DisputeThenRest(d: MachineData, task: Task, alist: seq<string>, plist: seq<string>)
    requires Live(d, task, plist) && plist != [] && alist != [] && VerbOf(alist[0]).Dispute?
    ensures RunActions(d, task, alist, plist).output.Some?
       <==> Settles(alist, !NoneOpen(d, plist), AllDisputed(d, plist), d.state.status)
    decreases |alist|, 0
  {
    DisputePaths(d, task, plist, plist);
    var next := RunPaths(d, task, "dispute", plist).data;
    AllNowDisputed(next, plist);
    ActionsSettleIff(next, task, alist[1..], plist);
  }

  lemma AllNowDisputed(next: MachineData, plist: seq<string>)
    requires plist != [] && forall p | p in plist :: StateOf(next.state.paths, p) == Some(Disputed)
    ensures NoneOpen(next, plist) && AllDisputed(next, plist)
  {
  }

  lemma LockedNoneOpen(d: MachineData, next: MachineData, plist: seq<string>)
    requires forall p | p in plist :: StateOf(next.state.paths, p) == AfterLock(StateOf(d.state.paths, p))
    ensures NoneOpen(next, plist) && (AllDisputed(next, plist) <==> AllDisputed(d, plist))
  {
    if AllDisputed(next, plist) {
      forall p | p in plist
        ensures StateOf(d.state.paths, p) == Some(Disputed)
      {
        assert StateOf(next.state.paths, p) == Some(Disputed);
      }
    }
  }

  /** Whether a task settles a machine, by its actions and what the machine shows before it. */
  predicate TaskSettles(d: MachineData, task: Task) {
    var plist := TaskPaths(task, d.state.paths);
    Settles(TaskActions(task), !NoneOpen(d, plist), AllDisputed(d, plist), d.state.status)
  }

  /**
   A task with any actions, on known paths and in its time, settles an unsettled machine of
   any run exactly when its list of actions does by the rule above.
   */
  lemma {:induction false} TaskSettlesIff(cfg: MachineConfig, events: seq<Event>, d: MachineData, task: Task)
    requires IsRun(cfg, events, d) && d.output.None? && cfg.pathnames != []
    requires CheckRegex(cfg.pathnames, task.paths) && CheckUpdateStamp(d, DueAt(d, task)).Done?
    ensures RunTask(d, task).output.Some? <==> TaskSettles(d, task)
  {
    var start := Reached(cfg, events);
    RunIsLive(cfg, start, d, task);
    ActionsSettleIff(d, task, TaskActions(task), TaskPaths(task, d.state.paths));
  }

  lemma RunIsLive(cfg: MachineConfig, start: seq<PathEntry>, d: MachineData, task: Task)
    requires Inv(cfg, start, d) && d.output.None? && cfg.pathnames != []
    requires CheckRegex(cfg.pathnames, task.paths) && CheckUpdateStamp(d, DueAt(d, task)).Done?
    ensures Live(d, task, TaskPaths(task, d.state.paths)) && TaskPaths(task, d.state.paths) != []
  {
    var plist := TaskPaths(task, d.state.paths);
    forall p | p in plist
      ensures FindPath(d.state.paths, p).Some?
    {
      NamesFound(d.state.paths, p);
    }
  }

  /* ---- Tasks that close, resolve or do everything ---- */

  lemma {:induction false} CloseResolveSettles(alist: seq<string>, open: bool, allDisputed: bool, status: VMStatus)
    requires forall a | a in alist :: a == "close" || a == "resolve"
    ensures Settles(alist, open, allDisputed, status)
        <==> status.DisputedStatus? && alist != [] && alist[0] == "resolve"
  {
    if alist != [] {
      assert alist[0] in alist && forall a | a in alist[1..] :: a in alist;
      CloseResolveSettles(alist[1..], open, allDisputed, if alist[0] == "close" then ClosedStatus else status);
    }
  }

  /** A task that only closes and resolves settles a machine exactly when it is disputed and the resolve comes first. */
  lemma {:induction false} ResolveFirstIff(cfg: MachineConfig, events: seq<Event>, d: MachineData, task: Task)
    requires IsRun(cfg, events, d) && d.output.None? && cfg.pathnames != []
    requires CheckRegex(cfg.pathnames, task.paths) && CheckUpdateStamp(d, DueAt(d, task)).Done?
    requires forall a | a in TaskActions(task) :: a == "close" || a == "resolve"
    ensures RunTask(d, task).output.Some?
       <==> d.state.status.DisputedStatus? && TaskActions(task) != [] && TaskActions(task)[0] == "resolve"
  {
    var plist := TaskPaths(task, d.state.paths);
    TaskSettlesIff(cfg, events, d, task);
    CloseResolveSettles(TaskActions(task), !NoneOpen(d, plist), AllDisputed(d, plist), d.state.status);
  }

  /**
   A task that offers every action closes first, so it settles nothing when all its paths
   are disputed, and otherwise resolves on a dispute it has made itself or locks an open path.
   */
  lemma {:induction false} WildcardSettlesIff(cfg: MachineConfig, events: seq<Event>, d: MachineData, task: Task)
    requires IsRun(cfg, events, d) && d.output.None? && cfg.pathnames != []
    requires CheckRegex(cfg.pathnames, task.paths) && CheckUpdateStamp(d, DueAt(d, task)).Done?
    requires task.actions == "*"
    ensures RunTask(d, task).output.Some? <==> !AllDisputed(d, TaskPaths(task, d.state.paths))
  {
    var plist := TaskPaths(task, d.state.paths);
    var start := Reached(cfg, events);
    RunIsLive(cfg, start, d, task);
    assert plist[0] in plist;
    TaskSettlesIff(cfg, events, d, task);
    var open, all := !NoneOpen(d, plist), AllDisputed(d, plist);
    WildcardSettles(open, all, d.state.status);
  }

  lemma WildcardSettles(open: bool, allDisputed: bool, status: VMStatus)
    requires !(open && allDisputed)
    ensures Settles(VALID_ACTIONS, open, allDisputed, status) <==> !allDisputed
  {
    var a := VALID_ACTIONS;
    assert a == ["close", "lock", "release", "dispute", "resolve", "spend"];
    assert a[1..] == ["lock", "release", "dispute", "resolve", "spend"];
    assert a[1..][1..] == ["release", "dispute", "resolve", "spend"];
    assert a[1..][1..][1..] == ["dispute", "resolve", "spend"];
    assert a[1..][1..][1..][1..] == ["resolve", "spend"];
    assert a[1..][1..][1..][1..][1..] == ["spend"];
    assert a[1..][1..][1..][1..][1..][1..] == [];
    assert Settles(a[1..][1..][1..][1..][1..], false, true, ClosedStatus) == false;
  }

  /* ---- Closing first ---- */

  lemma {:induction false} ResolveRefused(d: MachineData, task: Task, plist: seq<string>)
    requires !d.state.status.DisputedStatus?
    ensures RunPaths(d, task, "resolve", plist) == Flow(d, false)
    decreases |plist|
  {
    if plist != [] {
      OneResolveRefused(d, TaskInput(d, task, "resolve", Some(plist[0])), ByTask(task));
      ResolveRefused(d, task, plist[1..]);
    }
  }

  lemma OneResolveRefused(d: MachineData, input: VMInput, origin: Origin)
    requires !d.state.status.DisputedStatus? && input.action == "resolve"
    ensures !Update(d, input, origin).outcome.Done? && Update(d, input, origin).data == d
  {
  }

  lemma CloseCommits(d: MachineData, input: VMInput, origin: Origin)
    requires CheckUpdateStamp(d, input.stamp).Done? && VerbOf(input.action).Close? && input.path.None?
    ensures var d' := Update(d, input, origin).data;
            d'.closed && d'.output.None? && |d'.log| == |d.log| + 1 && d'.state.status.ClosedStatus?
  {}

  lemma CloseThenResolve(d: MachineData, task: Task, plist: seq<string>)
    requires CheckUpdateStamp(d, DueAt(d, task)).Done?
    ensures var d' := RunActions(d, task, ["close", "resolve"], plist);
            d'.closed && d'.output.None? && |d'.log| == |d.log| + 1
  {
    var input := TaskInput(d, task, "close", None);
    CloseCommits(d, input, ByTask(task));
    var closed := Update(d, input, ByTask(task)).data;
    ResolveRefused(closed, task, plist);
    assert ["close", "resolve"][1..] == ["resolve"];
    assert ["resolve"][1..] == [];
    assert RunActions(closed, task, ["resolve"], plist) == RunActions(closed, task, [], plist);
  }

  lemma SplitInTwo(first: string, second: string)
    requires '|' !in first && '|' !in second
    ensures GetAccessList(first + ['|'] + second, VALID_ACTIONS).wlist == [first, second]
  {
    var expr := first + ['|'] + second;
    SplitFirst(first, second, '|');
    assert expr[|first|] == '|' && "*"[0] == '*';
    assert expr != "*";
  }

  /**
   A task written `close|resolve`, as the documentation suggests, never resolves: the close
   replaces the disputed status, so even a disputed machine ends closed with no output.
   */
  lemma {:induction false} CloseBeforeResolve(d: MachineData, task: Task)
    requires task.actions == "close" + "|" + "resolve" && CheckUpdateStamp(d, DueAt(d, task)).Done?
    ensures var d' := RunTask(d, task);
            d'.closed && d'.output.None? && |d'.log| == |d.log| + 1
  {
    SplitInTwo("close", "resolve");
    CloseThenResolve(d, task, TaskPaths(task, d.state.paths));
  }
}
