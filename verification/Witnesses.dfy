/**
 Runs that show the exceptions happen, from any activation date and with any ids: machines
 in which the audit, the session check or the answer to a dispute fails.
 */
module Witnesses {
  import opened Wrappers
  import opened Text
  import opened Machine
  import opened Votes
  import opened Invariants
  import Polling
  import Audit
  import Statements

  /** When a machine is active, and its id. */
  datatype Term = Term(at: int, duration: int, vmid: string)

  /** A machine on one path, with one program or none and one task or none. */
  function Small(term: Term, path: string, programs: seq<ProgramData>, schedule: seq<Task>): MachineConfig {
    MachineConfig(term.at, "cvm", term.at + term.duration, [path], programs, schedule, term.vmid)
  }

  /** The record such a machine starts from. */
  ghost predicate FreshSmall(
    term: Term, path: string, programs: seq<ProgramData>, schedule: seq<Task>, d: MachineData) {
    && d.tasks == schedule && d.programs == programs && d.state.store == InitStores(programs) && d.log == []
    && d.state.status.InitStatus? && d.output.None? && !d.closed && d.error.None? && d.step == 0
    && d.commitAt == d.activeAt == d.updatedAt == term.at && d.expiresAt == term.at + term.duration
    && d.pathnames == [path] && |d.state.paths| == 1 && d.state.paths[0].name == path
    && Some(d.state.paths[0].state) == InitPathState(path, programs)
  }

  lemma SmallStarts(term: Term, path: string, programs: seq<ProgramData>, schedule: seq<Task>)
    requires |programs| <= 1 && |schedule| <= 1
    requires forall p | p in programs :: p.actions != "*" ==> !Grants(p, "dispute", path)
    ensures var start := InitVM(Small(term, path, programs, schedule));
            start.Some? && FreshSmall(term, path, programs, schedule, start.value)
  {
    assert [path][1..] == [] && InitVMState([], programs) == Some([]);
    if AnyGrants(programs, "dispute", path) {
      var p :| p in programs && Grants(p, "dispute", path);
      assert Grants(p, "resolve", path);
    }
    assert InitPathState(path, programs).Some?;
    if schedule != [] {
      assert schedule[1..] == [] && schedule == [schedule[0]];
    }
    assert InitTasks(schedule) == schedule;
  }

  /* ---- A schedule that settles by itself ---- */

  /** A task that spends its path settles the machine at a poll, and the auditor rejects the result. */
  lemma ScheduledSpendRejected(term: Term, task: Task, path: string, t: int)
    requires 0 <= task.timer < term.duration && term.at + task.timer <= t
    requires task.actions == "spend" && task.paths == path && '|' !in path && path != "*"
    ensures var cfg := Small(term, path, [], [task]);
            && InitVM(cfg).Some?
            && var polled := EvalSchedule(InitVM(cfg).value, t);
            polled.output == Some(path) && !Audit.ExecutionMatches(cfg, polled, [])
  {
    var cfg := Small(term, path, [], [task]);
    SmallStarts(term, path, [], [task]);
    var d := InitVM(cfg).value;
    SpendTaskSettles(d, task, path);
    assert [task][1..] == [];
    var keep := (other: Task) => IsDue(d, other, t);
    assert GetTasks(d, t) == Filter([task], keep) == [task];
    assert RunTasks(d, [task]) == Shift(RunTask(d, task));
    Audit.AuditAfterPoll(cfg, [], d, t);
  }

  lemma SpendTaskSettles(d: MachineData, task: Task, path: string)
    requires |d.state.paths| == 1 && d.state.paths[0].name == path && d.state.paths[0].state.Opened?
    requires task.actions == "spend" && task.paths == path && '|' !in path && path != "*"
    requires d.output.None? && CheckUpdateStamp(d, Polling.DueAt(d, task)).Done?
    ensures RunTask(d, task).output == Some(path)
  {
    assert "*"[0] == '*' && "spend"[0] == 's';
    assert TaskActions(task) == ["spend"] && TaskPaths(task, d.state.paths) == [path];
    assert FindPath(d.state.paths, path) == Some(0);
    assert RunPaths(d, task, "spend", [path]).stop;
  }

  /* ---- Statements to one program ---- */

  /** Evaluating one statement that its program accepts, when nothing is scheduled. */
  lemma EvalAccepted(d: MachineData, i: nat, w: WitnessData)
    requires d.tasks == [] && !d.closed && d.output.None? && Statements.LoadsAt(d, i, w)
    requires var exec := ExecMethod(d.programs[i].rule, d.state.store[i].votes, w); exec.accepted && exec.outcome.Done?
    ensures var votes := ExecMethod(d.programs[i].rule, d.state.store[i].votes, w).votes;
            var next := Update(WithVotes(d.(error := None), i, votes), WitnessInput(w),
                ByProgram(d.programs[i], w, Voters(d.programs[i].rule, votes, w)));
            match next.outcome
            case Done => EvalWitness(d, [w]) == next
            case VMError(fault) => EvalWitness(d, [w]) == Step(Done, next.data.(error := Some(fault)))
            case Throw(_) => EvalWitness(d, [w]).data == d
  {
    var cleared := d.(error := None);
    assert GetStatements([w]) == [w] && [w][1..] == [];
    assert RunSchedule(cleared, w.stamp) == cleared;
    assert LoadProgram(cleared.programs, cleared.state.store, w) == Success(Loaded(i, i));
    var next := RunProgram(cleared, w);
    assert EvalStack(next.data, []) == Step(Done, next.data);
  }

  /** One new signature of the only member meets a threshold of one. */
  lemma OneVote(votes: seq<Vote>, tag: string, a: string, proof: string)
    requires PubOf(proof) == a && a !in Recorded(votes, tag) && VotesOk(votes, [a])
    ensures var exec := ExecEndorse(votes, tag, [proof], Num(1.0), [a]);
            && exec.accepted && exec.outcome.Done?
            && WithVote(votes, tag, a) == Some(exec.votes) && Recorded(exec.votes, tag) == Recorded(votes, tag) + [a]
            && VotesOk(exec.votes, [a])
            && forall other | other != tag :: Recorded(exec.votes, other) == Recorded(votes, other)
  {
    var next := WithVote(votes, tag, a).value;
    WithVoteKeeps(votes, tag, a, [a], next);
  }

  /* ---- A session whose first statement fails ---- */

  /** A statement to one program with one proof. */
  predicate IsOne(w: WitnessData, progId: string, action: string, path: Option<string>, proof: string) {
    w.progId == progId && w.action == action && w.path == path && w.sigs == [proof]
  }

  /**
   A program that closes on one signature, a statement with somebody else's proof and then
   one with the member's: the batch stops at the first, and the audit of the session goes on
   to the second and rejects the result.
   */
  lemma SessionRejected(
    term: Term, path: string, program: ProgramData, a: string, w1: WitnessData, w2: WitnessData, stranger: string,
    proof: string)
    requires program.rule == Endorse(Num(1.0), [a]) && program.actions == "close"
    requires |a| == 64 && a <= proof && !(a <= stranger)
    requires IsOne(w1, program.progId, "close", None, stranger) && IsOne(w2, program.progId, "close", None, proof)
    requires term.at <= w1.stamp <= w2.stamp < term.at + term.duration
    ensures var cfg := Small(term, path, [program], []);
            && InitVM(cfg).Some? && GetStatements([w1, w2]) == [w1, w2]
            && EvalWitness(InitVM(cfg).value, [w1, w2]).outcome.Done?
            && !Audit.ExecutionMatches(cfg, EvalWitness(InitVM(cfg).value, [w1, w2]).data, [w1, w2])
  {
    var cfg := Small(term, path, [program], []);
    KeyBegins(proof, a);
    KeyBegins(stranger, a);
    CloseOnly(program, path);
    SmallStarts(term, path, [program], []);
    var d := InitVM(cfg).value;
    SortedTwo(w1, w2);
    FirstFails(d, program, w1, w2, a, stranger);
    SecondCloses(d, program, w2, a, proof);
    Audit.SessionCheckIff(cfg, [w1, w2]);
    assert [w1, w2][1..] == [w2];
    assert Audit.Replay(EvalWitness(d, [w1, w2]).data, [w2]).data.step == 1;
  }

  lemma CloseOnly(program: ProgramData, path: string)
    requires program.actions == "close"
    ensures Regex("close", program.actions) && !Grants(program, "dispute", path)
  {
    assert Split("close", '|') == ["close"];
    ContainsSelf("close");
    assert "*"[0] == '*' && "close"[0] == 'c';
    if Contains("dispute", "close") {
      var i :| 0 <= i <= 7 && "close" <= "dispute"[i..];
      OnlyWhole("dispute", "close", i);
    }
  }

  lemma SortedTwo(w1: WitnessData, w2: WitnessData)
    requires w1.stamp <= w2.stamp
    ensures GetStatements([w1, w2]) == [w1, w2]
  {
    assert [w1, w2][1..] == [w2] && [w2][1..] == [];
    assert GetStatements([w2]) == [w2];
  }

  ghost predicate Ready(d: MachineData, program: ProgramData, a: string) {
    && d.programs == [program] && |d.state.store| == 1 && d.state.store[0].progId == program.progId
    && program.rule == Endorse(Num(1.0), [a])
    && VotesOk(d.state.store[0].votes, [a])
    && d.tasks == [] && !d.closed && d.output.None?
  }

  lemma FirstFails(d: MachineData, program: ProgramData, w1: WitnessData, w2: WitnessData, a: string, stranger: string)
    requires Ready(d, program, a) && program.actions == "close" && d.error.None?
    requires PubOf(stranger) != a && IsOne(w1, program.progId, "close", None, stranger) && w1.stamp <= w2.stamp
    ensures EvalWitness(d, [w1, w2]) == Step(Done, d.(error := Some(NotAMember))) && Audit.Reached(d, [w1, w2]) == 1
  {
    SortedTwo(w1, w2);
    CloseAccess(program, w1, a);
    NothingScheduled(d, w1.stamp);
    StrangerRefused(d, program, w1, a, stranger);
    StopsAtFirst(d, [w1, w2]);
    RecordsFault(d, [w1, w2], NotAMember);
  }

  lemma CloseAccess(program: ProgramData, w: WitnessData, a: string)
    requires program.rule == Endorse(Num(1.0), [a]) && program.actions == "close"
    requires w.action == "close" && w.path.None?
    ensures CheckAccess(program, w).Done?
  {
    CloseOnly(program, "");
  }

  lemma NothingScheduled(d: MachineData, stamp: int)
    requires d.tasks == []
    ensures RunSchedule(d, stamp) == d
  {
  }

  lemma RecordsFault(d: MachineData, ws: seq<WitnessData>, fault: Fault)
    requires d.output.None? && d.error.None? && EvalStack(d, GetStatements(ws)) == Step(VMError(fault), d)
    ensures EvalWitness(d, ws) == Step(Done, d.(error := Some(fault)))
  {
    assert d.(error := None) == d;
  }

  lemma StopsAtFirst(d: MachineData, stack: seq<WitnessData>)
    requires stack != [] && RunSchedule(d, stack[0].stamp) == d && !d.closed
    requires !RunProgram(d, stack[0]).outcome.Done?
    ensures EvalStack(d, stack) == RunProgram(d, stack[0]) && Audit.Reached(d, stack) == 1
  {
  }

  lemma StrangerRefused(d: MachineData, program: ProgramData, w: WitnessData, a: string, stranger: string)
    requires Ready(d, program, a) && CheckAccess(program, w).Done?
    requires w.progId == program.progId && w.sigs == [stranger] && PubOf(stranger) != a
    ensures RunProgram(d, w) == Step(VMError(NotAMember), d)
  {
    assert LoadProgram(d.programs, d.state.store, w) == Success(Loaded(0, 0));
    assert d.state.store[0 := d.state.store[0].(votes := d.state.store[0].votes)] == d.state.store;
  }

  lemma SecondCloses(d: MachineData, program: ProgramData, w2: WitnessData, a: string, proof: string)
    requires Ready(d, program, a) && program.actions == "close" && PubOf(proof) == a
    requires IsOne(w2, program.progId, "close", None, proof)
    requires d.state.store[0].votes == [] && CheckUpdateStamp(d, w2.stamp).Done? && d.step == 0
    ensures EvalWitness(d.(error := Some(NotAMember)), [w2]).outcome.Done?
    ensures EvalWitness(d.(error := Some(NotAMember)), [w2]).data.step == 1
  {
    CloseOnly(program, "");
    OneVote([], Label(None, "close"), a, proof);
    assert Statements.LoadsAt(d.(error := Some(NotAMember)), 0, w2);
    EvalAccepted(d.(error := Some(NotAMember)), 0, w2);
    var votes := ExecMethod(program.rule, [], w2).votes;
    CloseUpdate(WithVotes(d.(error := None), 0, votes), w2, ByProgram(program, w2, Voters(program.rule, votes, w2)));
  }

  lemma CloseUpdate(d: MachineData, w: WitnessData, origin: Origin)
    requires w.action == "close" && CheckUpdateStamp(d, w.stamp).Done?
    ensures var next := Update(d, WitnessInput(w), origin); next.outcome.Done? && next.data.step == d.step + 1
  {
  }

  /* ---- A dispute that nobody can answer ---- */

  /**
   A program that needs one signature for anything, a resolve before there is a dispute, and
   then a dispute: the resolve is refused but its vote is spent, and in the disputed machine
   no statement resolves any more.
   */
  lemma DisputeLeftUnanswered(
    term: Term, path: string, program: ProgramData, a: string, resolve: WitnessData, dispute: WitnessData,
    proof: string, later: string, stamp: int)
    requires program.rule == Endorse(Num(1.0), [a]) && program.actions == "*" && program.paths == Some("*")
    requires |a| == 64 && a <= proof && a <= later && path != "null"
    requires IsOne(resolve, program.progId, "resolve", Some(path), proof)
    requires IsOne(dispute, program.progId, "dispute", Some(path), later)
    requires term.at <= resolve.stamp <= dispute.stamp <= stamp < term.at + term.duration
    ensures var cfg := Small(term, path, [program], []);
            && InitVM(cfg).Some?
            && var d := Run(InitVM(cfg).value, [Statements([resolve]), Statements([dispute])]);
            && Statements.AwaitsResolve(d, path, stamp) && Closes(d.log) == 0
            && forall w: WitnessData | w.stamp == stamp && w.action == "resolve" && w.path == Some(path) ::
                 EvalWitness(d, [w]).data.output.None?
  {
    KeyBegins(proof, a);
    KeyBegins(later, a);
    SmallStarts(term, path, [program], []);
    var d := InitVM(Small(term, path, [program], [])).value;
    assert OnePath(d, program, path, a) && !d.state.paths[0].state.Disputed?;
    ResolveThenDispute(d, program, path, a, resolve, dispute, proof, later);
    RunTwo(d, [resolve], [dispute]);
    NobodyResolves(EvalWitness(EvalWitness(d, [resolve]).data, [dispute]).data, program, path, a, stamp);
  }

  lemma ResolveThenDispute(
    d: MachineData, program: ProgramData, path: string, a: string, resolve: WitnessData, dispute: WitnessData,
    proof: string, later: string)
    requires OnePath(d, program, path, a) && PubOf(proof) == PubOf(later) == a && d.log == []
    requires IsOne(resolve, program.progId, "resolve", Some(path), proof)
    requires IsOne(dispute, program.progId, "dispute", Some(path), later)
    requires d.state.store[0].votes == [] && d.state.status.InitStatus? && !d.state.paths[0].state.Disputed?
    requires CheckUpdateStamp(d, dispute.stamp).Done?
    ensures var d' := EvalWitness(EvalWitness(d, [resolve]).data, [dispute]).data;
            && OnePath(d', program, path, a) && d'.state.status.DisputedStatus? && Closes(d'.log) == 0
            && d'.commitAt == dispute.stamp && d'.expiresAt == d.expiresAt
            && Recorded(d'.state.store[0].votes, Label(Some(path), "resolve")) == [a]
  {
    EarlyResolve(d, program, resolve, path, a, proof);
    var mid := EvalWitness(d, [resolve]).data;
    ThenDispute(mid, program, dispute, path, a, later);
  }

  lemma RunTwo(d: MachineData, first: seq<WitnessData>, second: seq<WitnessData>)
    ensures Run(d, [Statements(first), Statements(second)]) == EvalWitness(EvalWitness(d, first).data, second).data
  {
    var events := [Statements(first), Statements(second)];
    var mid := EvalWitness(d, first).data;
    assert events[1..] == [Statements(second)] && events[1..][1..] == [];
    assert Run(d, events) == Run(mid, events[1..]);
  }

  lemma NobodyResolves(d: MachineData, program: ProgramData, path: string, a: string, stamp: int)
    requires OnePath(d, program, path, a) && Recorded(d.state.store[0].votes, Label(Some(path), "resolve")) == [a]
    requires Statements.AwaitsResolve(d, path, stamp)
    ensures forall w: WitnessData | w.stamp == stamp && w.action == "resolve" && w.path == Some(path) ::
              EvalWitness(d, [w]).data.output.None?
  {
    forall w: WitnessData | w.stamp == stamp && w.action == "resolve" && w.path == Some(path)
      ensures EvalWitness(d, [w]).data.output.None?
    {
      NoMoreResolves(d, program, w, path, a);
    }
  }

  /** A machine of one endorse program open to everything, with one path. */
  ghost predicate OnePath(d: MachineData, program: ProgramData, path: string, a: string) {
    && Ready(d, program, a) && program.actions == "*" && program.paths == Some("*") && path != "null"
    && d.pathnames == [path] && |d.state.paths| == 1 && d.state.paths[0].name == path
  }

  lemma EarlyResolve(d: MachineData, program: ProgramData, w: WitnessData, path: string, a: string, proof: string)
    requires OnePath(d, program, path, a) && IsOne(w, program.progId, "resolve", Some(path), proof) && PubOf(proof) == a
    requires d.state.store[0].votes == [] && !d.state.status.DisputedStatus?
    ensures var d' := EvalWitness(d, [w]).data;
            && OnePath(d', program, path, a) && d'.state.paths == d.state.paths && d'.log == d.log
               && d'.commitAt == d.commitAt && d'.expiresAt == d.expiresAt
            && Recorded(d'.state.store[0].votes, Label(w.path, "resolve")) == [a]
            && Recorded(d'.state.store[0].votes, Label(w.path, "dispute")) == []
  {
    var tag, other := Label(w.path, "resolve"), Label(w.path, "dispute");
    DifferentLabels(path);
    OneVote([], tag, a, proof);
    assert Statements.LoadsAt(d, 0, w);
    EvalAccepted(d, 0, w);
    assert FindPath(d.state.paths, path) == Some(0);
  }

  lemma ThenDispute(d: MachineData, program: ProgramData, w: WitnessData, path: string, a: string, proof: string)
    requires OnePath(d, program, path, a) && IsOne(w, program.progId, "dispute", Some(path), proof) && PubOf(proof) == a
    requires Recorded(d.state.store[0].votes, Label(w.path, "resolve")) == [a]
    requires Recorded(d.state.store[0].votes, Label(w.path, "dispute")) == []
    requires !d.state.paths[0].state.Disputed? && CheckUpdateStamp(d, w.stamp).Done?
    ensures var d' := EvalWitness(d, [w]).data;
            && OnePath(d', program, path, a) && d'.state.status.DisputedStatus?
            && d'.commitAt == w.stamp && d'.expiresAt == d.expiresAt
            && Closes(d'.log) == Closes(d.log)
            && Recorded(d'.state.store[0].votes, Label(w.path, "resolve")) == [a]
  {
    DifferentLabels(path);
    var votes := d.state.store[0].votes;
    OneVote(votes, Label(w.path, "dispute"), a, proof);
    assert Statements.LoadsAt(d, 0, w);
    EvalAccepted(d, 0, w);
    var next := ExecEndorse(votes, Label(w.path, "dispute"), [proof], Num(1.0), [a]).votes;
    assert ExecMethod(program.rule, votes, w).votes == next;
    var origin := ByProgram(program, w, Voters(program.rule, next, w));
    DisputeUpdate(WithVotes(d.(error := None), 0, next), w, origin, path);
    ClosesExtend(d.log, LogEntry(WitnessInput(w), origin));
  }

  lemma DisputeUpdate(d: MachineData, w: WitnessData, origin: Origin, path: string)
    requires |d.state.paths| == 1 && d.state.paths[0].name == path && !d.state.paths[0].state.Disputed?
    requires w.action == "dispute" && w.path == Some(path) && CheckUpdateStamp(d, w.stamp).Done?
    ensures var next := Update(d, WitnessInput(w), origin);
            && next.outcome.Done?
            && next.data
               == d.(state := next.data.state, step := d.step + 1, commitAt := w.stamp, head := next.data.head,
                               log := d.log + [LogEntry(WitnessInput(w), origin)])
            && next.data.state.store == d.state.store && next.data.state.status.DisputedStatus?
            && |next.data.state.paths| == 1 && next.data.state.paths[0].name == path
  {
    assert FindPath(d.state.paths, path) == Some(0);
  }

  lemma NoMoreResolves(d: MachineData, program: ProgramData, w: WitnessData, path: string, a: string)
    requires OnePath(d, program, path, a) && w.action == "resolve" && w.path == Some(path)
    requires Recorded(d.state.store[0].votes, Label(w.path, "resolve")) == [a]
    requires Statements.AwaitsResolve(d, path, w.stamp)
    ensures EvalWitness(d, [w]).data.output.None?
  {
    if w.progId == program.progId {
      assert Statements.LoadsAt(d, 0, w);
      Statements.ResolveEvaluated(d, 0, w, path);
      if ExecEndorse(d.state.store[0].votes, Label(w.path, "resolve"), w.sigs, Num(1.0), [a]).accepted {
        Statements.AcceptedWithin(d.state.store[0].votes, Label(w.path, "resolve"), w.sigs, Num(1.0), [a]);
      }
    } else {
      assert RunProgram(d.(error := None), w) == Step(Throw(ProgramNotFound), d.(error := None));
      Statements.EvaluatedAlone(d, w);
    }
  }

  lemma DifferentLabels(path: string)
    ensures Label(Some(path), "resolve") != Label(Some(path), "dispute")
  {
    assert Label(Some(path), "resolve")[|path| + 1] == 'r' && Label(Some(path), "dispute")[|path| + 1] == 'd';
  }
}
