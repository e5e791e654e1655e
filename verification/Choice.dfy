/**
 Which path a task settles a machine on: the first one in the order of the record or of the
 expression's text that the action is not refused on.
 */
module Choice {
  import opened Wrappers
  import opened Text
  import opened Machine
  import opened Frames
  import opened Polling
  import opened Liveness
  import opened Idle

  /** The first name in a list for which `fits` holds. */
  function FirstThat(names: seq<string>, fits: string -> bool): (r: Option<string>)
    ensures r.Some? ==> r.value in names && fits(r.value)
    ensures r.None? ==> forall n | n in names :: !fits(n)
  {
    if names == [] then None
    else if fits(names[0]) then Some(names[0])
    else FirstThat(names[1..], fits)
  }

  function IsOpen(d: MachineData): string -> bool {
    (name: string) => StateOf(d.state.paths, name) == Some(Opened)
  }

  function IsKnown(d: MachineData): string -> bool {
    (name: string) => StateOf(d.state.paths, name).Some?
  }

  /* ---- The list of paths ---- */

  /** A spend over a list outputs the first open path of the list. */
  lemma {:induction false} SpendTakesFirst(d: MachineData, task: Task, plist: seq<string>)
    requires Running(d, task)
    ensures RunPaths(d, task, "spend", plist).data.output == FirstThat(plist, IsOpen(d))
    ensures RunPaths(d, task, "spend", plist).stop <==> FirstThat(plist, IsOpen(d)).Some?
    decreases |plist|
  {
    if plist != [] {
      StepRefused(d, task, "spend", plist[0]);
      OpenIsNotRefused(d, task, plist[0]);
      if !IsOpen(d)(plist[0]) {
        SpendTakesFirst(d, task, plist[1..]);
      }
    }
  }

  lemma OpenIsNotRefused(d: MachineData, task: Task, name: string)
    requires Running(d, task)
    ensures Refuses(d, "spend", name) <==> !IsOpen(d)(name)
    ensures IsOpen(d)(name) ==>
              Update(d, TaskInput(d, task, "spend", Some(name)), ByTask(task)).data.output == Some(name)
  {
    var i := FindPath(d.state.paths, name);
    assert i.Some? ==> !d.state.paths[i.value].state.Spent?;
  }

  /** In a disputed machine a resolve over a list outputs its first known path. */
  lemma {:induction false} ResolveTakesFirst(d: MachineData, task: Task, plist: seq<string>)
    requires Running(d, task) && d.state.status.DisputedStatus?
    ensures RunPaths(d, task, "resolve", plist).data.output == FirstThat(plist, IsKnown(d))
    ensures RunPaths(d, task, "resolve", plist).stop <==> FirstThat(plist, IsKnown(d)).Some?
    decreases |plist|
  {
    if plist != [] {
      StepRefused(d, task, "resolve", plist[0]);
      if IsKnown(d)(plist[0]) {
        assert Update(d, TaskInput(d, task, "resolve", Some(plist[0])), ByTask(task)).data.output == Some(plist[0]);
      } else {
        ResolveTakesFirst(d, task, plist[1..]);
      }
    }
  }

  /** A task with one action, which is a path action, runs that action over its list. */
  lemma OneAction(d: MachineData, task: Task)
    requires task.actions == "spend" || task.actions == "resolve"
    ensures RunTask(d, task) == RunPaths(d, task, task.actions, TaskPaths(task, d.state.paths)).data
  {
    assert "*"[0] == '*' && "spend"[0] == 's' && "resolve"[0] == 'r';
    assert TaskActions(task) == [task.actions] && [task.actions][1..] == [];
    assert IsPathAction(task.actions);
    var plist := TaskPaths(task, d.state.paths);
    var flow := RunPaths(d, task, task.actions, plist);
    assert RunActions(flow.data, task, [task.actions][1..], plist) == flow.data;
  }

  /* ---- All paths, in the order of the record ---- */

  /** The first entry of a record in a state. */
  ghost predicate FirstIn(paths: seq<PathEntry>, i: nat, state: PathState) {
    i < |paths| && paths[i].state == state && forall k | 0 <= k < i :: paths[k].state != state
  }

  lemma {:induction false} StateOfEntry(paths: seq<PathEntry>, i: nat)
    requires i < |paths| && Distinct(PathNames(paths))
    ensures StateOf(paths, paths[i].name) == Some(paths[i].state)
  {
    if i > 0 {
      assert paths[0].name == PathNames(paths)[0] != PathNames(paths)[i] == paths[i].name;
      assert PathNames(paths[1..]) == PathNames(paths)[1..];
      StateOfEntry(paths[1..], i - 1);
    }
  }

  lemma {:induction false} FirstOfNames(names: seq<string>, fits: string -> bool, i: nat)
    requires i < |names| && fits(names[i]) && forall k | 0 <= k < i :: !fits(names[k])
    ensures FirstThat(names, fits) == Some(names[i])
  {
    if i > 0 {
      FirstOfNames(names[1..], fits, i - 1);
    }
  }

  /**
   A spend on all paths settles the machine on the first entry of its record that is open,
   and on none when none is.
   */
  lemma {:induction false} SpendAllSettlesFirst(d: MachineData, task: Task, i: nat)
    requires Running(d, task) && Distinct(PathNames(d.state.paths)) && task.actions == "spend" && task.paths == "*"
    ensures FirstIn(d.state.paths, i, Opened) ==> RunTask(d, task).output == Some(d.state.paths[i].name)
    ensures !SomeOpen(d) ==> RunTask(d, task).output == None
  {
    var paths, names := d.state.paths, PathNames(d.state.paths);
    OneAction(d, task);
    SpendTakesFirst(d, task, names);
    forall k | 0 <= k < |paths|
      ensures IsOpen(d)(names[k]) <==> paths[k].state.Opened?
    {
      StateOfEntry(paths, k);
    }
    if FirstIn(paths, i, Opened) {
      FirstOfNames(names, IsOpen(d), i);
    }
  }

  predicate SomeOpen(d: MachineData) {
    exists i | 0 <= i < |d.state.paths| :: d.state.paths[i].state.Opened?
  }

  /** A resolve on all paths of a disputed machine settles it on the first entry of its record, whatever its state. */
  lemma {:induction false} ResolveAllSettlesFirst(d: MachineData, task: Task)
    requires Running(d, task) && task.actions == "resolve" && task.paths == "*"
    requires d.state.status.DisputedStatus? && d.state.paths != []
    ensures RunTask(d, task).output == Some(d.state.paths[0].name)
  {
    OneAction(d, task);
    ResolveTakesFirst(d, task, PathNames(d.state.paths));
    NamesFound(d.state.paths, d.state.paths[0].name);
  }

  /* ---- Named paths, in the order of the text ---- */

  /** The text up to the first separator. */
  function FirstLabel(expr: string): (r: string)
    ensures '|' !in r && |r| <= |expr| && r <= expr
    ensures '|' in expr ==> |r| < |expr| && expr[|r|] == '|'
    ensures '|' !in expr ==> r == expr
  {
    if expr == [] || expr[0] == '|' then []
    else
      assert expr == [expr[0]] + expr[1..];
      [expr[0]] + FirstLabel(expr[1..])
  }

  /** The first label of the text, read from left to right, that fits. */
  function ReadOff(expr: string, fits: string -> bool): Option<string>
    decreases |expr|
  {
    var first := FirstLabel(expr);
    if fits(first) then Some(first)
    else if '|' in expr then ReadOff(expr[|first| + 1..], fits)
    else None
  }

  lemma {:induction false} SplitReadsOff(expr: string, fits: string -> bool)
    ensures FirstThat(Split(expr, '|'), fits) == ReadOff(expr, fits)
    decreases |expr|
  {
    var first := FirstLabel(expr);
    if '|' in expr {
      var rest := expr[|first| + 1..];
      assert expr == first + ['|'] + rest;
      SplitFirst(first, rest, '|');
      SplitReadsOff(rest, fits);
      assert ([first] + Split(rest, '|'))[1..] == Split(rest, '|');
    } else {
      assert Split(expr, '|') == [expr] && [expr][1..] == [];
    }
  }

  lemma TaskPathsRead(task: Task, paths: seq<PathEntry>, fits: string -> bool)
    requires task.paths != "*"
    ensures FirstThat(TaskPaths(task, paths), fits) == ReadOff(task.paths, fits)
  {
    SplitReadsOff(task.paths, fits);
    if '|' !in task.paths {
      assert Split(task.paths, '|') == [task.paths];
    }
  }

  /** A spend on named paths settles the machine on the first open one of its text, read from left to right. */
  lemma {:induction false} SpendReadsLeftToRight(d: MachineData, task: Task)
    requires Running(d, task) && task.actions == "spend" && task.paths != "*"
    ensures RunTask(d, task).output == ReadOff(task.paths, IsOpen(d))
  {
    OneAction(d, task);
    SpendTakesFirst(d, task, TaskPaths(task, d.state.paths));
    TaskPathsRead(task, d.state.paths, IsOpen(d));
  }

  /** A resolve on named paths settles a disputed machine on the first known one of its text. */
  lemma {:induction false} ResolveReadsLeftToRight(d: MachineData, task: Task)
    requires Running(d, task) && task.actions == "resolve" && task.paths != "*" && d.state.status.DisputedStatus?
    ensures RunTask(d, task).output == ReadOff(task.paths, IsKnown(d))
  {
    OneAction(d, task);
    ResolveTakesFirst(d, task, TaskPaths(task, d.state.paths));
    TaskPathsRead(task, d.state.paths, IsKnown(d));
  }
}
