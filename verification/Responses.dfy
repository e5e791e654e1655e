/**
 What the machine answers to each request: which updates are refused and why, what a refusal
 or a throw leaves behind, what a closed machine still does, and that nothing is done early.
 */
module Responses {
  import opened Wrappers
  import opened Text
  import opened Machine
  import opened Frames
  import opened Votes
  import opened Statements
  import opened Polling
  import opened Liveness
  import Methods
  import Sorting

  /* ---- Updates ---- */

  /** The path actions that a path accepts in each of its states; only a resolve asks for a disputed machine. */
  predicate Accepts(action: string, pstate: PathState, status: VMStatus) {
    match action
    case "lock" => pstate.Opened? || pstate.Spent?
    case "spend" => pstate.Opened? || pstate.Spent?
    case "dispute" => !pstate.Disputed?
    case "resolve" => status.DisputedStatus?
    case _ => false
  }

  /** Why a path refuses a path action. */
  function Reason(action: string, pstate: PathState): Fault {
    match (action, pstate)
    case ("lock", Locked) => AlreadyLocked
    case ("lock", _) => PathInDispute
    case ("spend", Locked) => PathLocked
    case ("spend", _) => PathInDispute
    case ("dispute", _) => AlreadyDisputed
    case ("resolve", _) => NotInDispute
    case _ => ActionNotFound
  }

  /** What stands against an update in the order it is looked at, if anything does. */
  function Objection(d: MachineData, input: VMInput): Outcome {
    if input.stamp < d.commitAt then VMError(StampBeforeCommit(input.stamp, d.commitAt))
    else if d.expiresAt <= input.stamp then VMError(StampExpired(input.stamp, d.expiresAt))
    else if input.action == "close" then Done
    else if input.action !in PATH_ACTIONS then Throw(UnrecognizedAction)
    else if input.path.None? then Throw(PathIsNull)
    else
      match StateOf(d.state.paths, input.path.value)
      case None => Throw(PathMissing)
      case Some(pstate) =>
        if Accepts(input.action, pstate, d.state.status) then Done else VMError(Reason(input.action, pstate))
  }

  /** An update is answered with the first objection, and a machine with an objection is left as it was. */
  lemma UpdateAnswers(d: MachineData, input: VMInput, origin: Origin)
    ensures Update(d, input, origin).outcome == Objection(d, input)
    ensures Update(d, input, origin).data == d <==> !Objection(d, input).Done?
  {
    PathActionsListed(input.action);
    UpdateCommits(d, input, origin);
    if IsPathAction(input.action) && input.path.Some? {
      var i := FindPath(d.state.paths, input.path.value);
      if i.Some? {
        ReasonGiven(input.action, d.state.paths[i.value].state, d.state.status);
      }
    }
  }

  lemma ReasonGiven(action: string, pstate: PathState, status: VMStatus)
    requires IsPathAction(action)
    ensures RunPathAction(action, pstate, status).Success? <==> Accepts(action, pstate, status)
    ensures RunPathAction(action, pstate, status).Failure? ==>
      RunPathAction(action, pstate, status).error == Reason(action, pstate)
  {
  }

  /* ---- Statements ---- */

  /** The earliest stamp of a batch. */
  ghost predicate IsEarliest(ws: seq<WitnessData>, stamp: int) {
    (exists w :: w in ws && w.stamp == stamp) && forall w | w in ws :: stamp <= w.stamp
  }

  lemma FirstIsEarliest(ws: seq<WitnessData>)
    requires ws != []
    ensures GetStatements(ws) != [] && IsEarliest(ws, GetStatements(ws)[0].stamp)
  {
    var key := (w: WitnessData) => w.stamp;
    var stack := GetStatements(ws);
    Sorting.SortBySorted(ws, key);
    assert stack[0] in multiset(stack) && stack[0] in ws;
    forall w | w in ws
      ensures stack[0].stamp <= w.stamp
    {
      assert w in multiset(ws) && w in stack;
      Sorting.SortedTail(stack, key);
    }
  }

  /**
   A closed machine hears no statement: a batch only runs the tasks due by the earliest of its
   stamps, and clears the error.
   */
  lemma {:induction false} ClosedHearsNothing(d: MachineData, ws: seq<WitnessData>, stamp: int)
    requires d.closed && d.output.None? && ws != [] && IsEarliest(ws, stamp)
    ensures EvalWitness(d, ws) == Step(Done, EvalSchedule(d.(error := None), stamp))
  {
    FirstIsEarliest(ws);
    var w :| w in ws && w.stamp == stamp;
    assert GetStatements(ws)[0].stamp == stamp;
    RunTasksCommits(d.(error := None), GetTasks(d.(error := None), stamp));
  }

  lemma OneStatement(w: WitnessData)
    ensures GetStatements([w]) == [w] && [w][1..] == []
  {
    assert w in multiset(GetStatements([w]));
  }

  /**
   A statement is run on the machine that a poll at its stamp leaves, if that is still open. A
   refusal is recorded beside what the poll and the statement left, and the error of an earlier
   evaluation is dropped; a throw leaves the caller's record as it was, the poll undone.
   */
  lemma {:induction false} StatementAnswers(d: MachineData, w: WitnessData)
    requires d.output.None?
    ensures var timed := EvalSchedule(d.(error := None), w.stamp);
            var next := RunProgram(timed, w);
            EvalWitness(d, [w]) ==
              if timed.closed then Step(Done, timed)
              else
                match next.outcome
                case Done => next
                case VMError(fault) => Step(Done, next.data.(error := Some(fault)))
                case Throw(escape) => Step(Throw(escape), d)
  {
    OneStatement(w);
    var timed := RunSchedule(d.(error := None), w.stamp);
    var next := RunProgram(timed, w);
    assert EvalStack(next.data, []) == Step(Done, next.data);
    assert EvalStack(d.(error := None), [w]) ==
        if timed.closed
        then Step(Done, timed)
        else Step(next.outcome, next.data);
  }

  /** A stranger's endorsement changes no vote and no path: all that is left of it is the error. */
  lemma StrangerIsRecorded(d: MachineData, i: nat, w: WitnessData)
    requires d.output.None?
    requires var timed := EvalSchedule(d.(error := None), w.stamp);
             && !timed.closed && LoadsAt(timed, i, w) && timed.programs[i].rule.Endorse?
             && w.sigs != [] && forall m | m in timed.programs[i].rule.members :: |m| == 64 && !(m <= w.sigs[0])
    ensures EvalWitness(d, [w]) ==
            Step(Done, EvalSchedule(d.(error := None), w.stamp).(error := Some(NotAMember)))
  {
    var timed := EvalSchedule(d.(error := None), w.stamp);
    StatementAnswers(d, w);
    if PubOf(w.sigs[0]) in timed.programs[i].rule.members {
      KeyBegins(w.sigs[0], PubOf(w.sigs[0]));
    }
    var exec := ExecMethod(timed.programs[i].rule, timed.state.store[i].votes, w);
    assert exec == Execution(VMError(NotAMember), false, timed.state.store[i].votes);
    assert WithVotes(timed, i, exec.votes) == timed;
  }

  /* ---- Nothing early ---- */

  /** What was added to a log is stamped no later than `limit`. */
  ghost predicate AddedBy(log: seq<LogEntry>, log': seq<LogEntry>, limit: int) {
    log <= log' && forall i | |log| <= i < |log'| :: log'[i].input.stamp <= limit
  }

  lemma {:induction false} RunPathsBy(d: MachineData, task: Task, action: string, plist: seq<string>)
    ensures AddedBy(d.log, RunPaths(d, task, action, plist).data.log, DueAt(d, task))
    decreases |plist|
  {
    if plist != [] {
      var input := TaskInput(d, task, action, Some(plist[0]));
      UpdateCommits(d, input, ByTask(task));
      RunPathsBy(Update(d, input, ByTask(task)).data, task, action, plist[1..]);
    }
  }

  lemma {:induction false} RunActionsBy(d: MachineData, task: Task, alist: seq<string>, plist: seq<string>)
    ensures AddedBy(d.log, RunActions(d, task, alist, plist).log, DueAt(d, task))
    decreases |alist|
  {
    if alist != [] {
      if IsPathAction(alist[0]) {
        RunPathsBy(d, task, alist[0], plist);
        RunPathsCommits(d, task, alist[0], plist);
        RunActionsBy(RunPaths(d, task, alist[0], plist).data, task, alist[1..], plist);
      } else {
        var input := TaskInput(d, task, alist[0], None);
        UpdateCommits(d, input, ByTask(task));
        RunActionsBy(Update(d, input, ByTask(task)).data, task, alist[1..], plist);
      }
    }
  }

  lemma {:induction false} RunTasksBy(d: MachineData, due: seq<Task>, limit: int)
    requires forall task | task in due :: DueAt(d, task) <= limit
    ensures AddedBy(d.log, RunTasks(d, due).log, limit)
    decreases |due|
  {
    if due != [] {
      RunActionsBy(d, due[0], TaskActions(due[0]), TaskPaths(due[0], d.state.paths));
      RunTaskCommits(d, due[0]);
      var next := Shift(RunTask(d, due[0]));
      forall task | task in due[1..]
        ensures DueAt(next, task) <= limit
      {
        assert task in due;
      }
      RunTasksBy(next, due[1..], limit);
    }
  }

  lemma RunScheduleBy(d: MachineData, stopAt: int)
    ensures AddedBy(d.log, RunSchedule(d, stopAt).log, stopAt)
  {
    RunTasksBy(d, GetTasks(d, stopAt), stopAt);
  }

  lemma RunProgramBy(d: MachineData, w: WitnessData)
    ensures AddedBy(d.log, RunProgram(d, w).data.log, w.stamp)
  {
    match LoadProgram(d.programs, d.state.store, w) {
      case Failure(_) =>
      case Success(Loaded(i, j)) =>
        var exec := ExecMethod(d.programs[i].rule, d.state.store[j].votes, w);
        UpdateCommits(WithVotes(d, j, exec.votes), WitnessInput(w),
          ByProgram(d.programs[i], w, Voters(d.programs[i].rule, exec.votes, w)));
    }
  }

  lemma {:induction false} EvalStackBy(d: MachineData, stack: seq<WitnessData>, limit: int)
    requires forall w | w in stack :: w.stamp <= limit
    ensures AddedBy(d.log, EvalStack(d, stack).data.log, limit)
    decreases |stack|
  {
    if stack != [] {
      var timed := RunSchedule(d, stack[0].stamp);
      RunScheduleBy(d, stack[0].stamp);
      RunProgramBy(timed, stack[0]);
      EvalStackBy(RunProgram(timed, stack[0]).data, stack[1..], limit);
    }
  }

  lemma BatchBy(d: MachineData, ws: seq<WitnessData>, limit: int)
    requires forall w | w in ws :: w.stamp <= limit
    ensures AddedBy(d.log, EvalWitness(d, ws).data.log, limit)
  {
    SortedWithin(ws, limit);
    EvalStackBy(d.(error := None), GetStatements(ws), limit);
    EvalWitnessLog(d, ws);
  }

  /** An evaluation adds what its statements added, or nothing. */
  lemma EvalWitnessLog(d: MachineData, ws: seq<WitnessData>)
    ensures var log := EvalWitness(d, ws).data.log;
            log == d.log || log == EvalStack(d.(error := None), GetStatements(ws)).data.log
  {
  }

  lemma SortedWithin(ws: seq<WitnessData>, limit: int)
    requires forall w | w in ws :: w.stamp <= limit
    ensures forall w | w in GetStatements(ws) :: w.stamp <= limit
  {
    forall w | w in GetStatements(ws)
      ensures w.stamp <= limit
    {
      assert w in multiset(GetStatements(ws)) && w in ws;
    }
  }

  /**
   No commit is ahead of what was asked: a poll adds none later than its time, a batch none
   later than its last stamp.
   */
  lemma {:induction false} NothingEarly(d: MachineData, event: Event, limit: int)
    requires match event case Poll(t) => t <= limit case Statements(ws) => forall w | w in ws :: w.stamp <= limit
    ensures AddedBy(d.log, Apply(d, event).data.log, limit)
  {
    match event {
      case Poll(t) => RunScheduleBy(d, t);
      case Statements(ws) => BatchBy(d, ws, limit);
    }
  }
}
