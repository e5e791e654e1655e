/**
 Safety over whole runs of a contract machine.
 */
module Safety {
  import opened Wrappers
  import opened Text
  import opened Machine
  import opened Frames
  import opened Votes
  import opened Invariants
  import opened Reachable
  import opened History
  import Audit
  import Sorting

  /**
   Without a close commit, being closed, having an output, the status `spent` and a spent
   path are one thing, and the output names the one path that is spent. While there is no
   output the status is `disputed` exactly when some path is.
   */
  lemma {:induction false} MachineInvariant(cfg: MachineConfig, events: seq<Event>, d: MachineData)
    requires IsRun(cfg, events, d) && Distinct(cfg.pathnames)
    requires Closes(d.log) == 0
    ensures var paths := d.state.paths;
            && (d.closed <==> d.output.Some?)
            && (d.output.Some? <==> d.state.status.SpentStatus?)
            && (d.output.Some? ==> d.output.value in cfg.pathnames)
            && (d.output.Some? <==> SomePathIs(paths, Spent))
            && (forall i | 0 <= i < |paths| && d.output.Some? ::
                 paths[i].state.Spent? <==> d.output.value == paths[i].name)
            && (d.output.None? ==> (d.state.status.DisputedStatus? <==> SomePathIs(paths, Disputed)))
  {
    var start := Reached(cfg, events);
    if d.output.Some? {
      OutputIsTheSpentPath(cfg, d);
    }
  }

  lemma OutputIsTheSpentPath(cfg: MachineConfig, d: MachineData)
    requires PathNames(d.state.paths) == cfg.pathnames && Distinct(cfg.pathnames)
    requires PathsInv(cfg, d) && d.output.Some? && d.state.status.SpentStatus?
    ensures var paths := d.state.paths;
            && SomePathIs(paths, Spent)
            && forall i | 0 <= i < |paths| :: paths[i].state.Spent? <==> d.output.value == paths[i].name
  {
    var paths := d.state.paths;
    var k :| 0 <= k < |paths| && paths[k].state == Spent;
    forall i | 0 <= i < |paths| && d.output.value == paths[i].name
      ensures i == k
    {
      assert cfg.pathnames[i] == paths[i].name && cfg.pathnames[k] == paths[k].name;
    }
  }

  /**
   With a close commit the equivalence fails only one way: an output always means closed, and a
   spent path is the output.
   */
  lemma {:induction false} OutputMeansClosed(cfg: MachineConfig, events: seq<Event>, d: MachineData)
    requires IsRun(cfg, events, d)
    ensures d.output.Some? ==> d.closed && d.output.value in cfg.pathnames
    ensures d.closed && d.output.None? ==> Closes(d.log) > 0
    ensures forall i | 0 <= i < |d.state.paths| && d.state.paths[i].state.Spent? ::
              d.output == Some(d.state.paths[i].name)
  {
    var start := Reached(cfg, events);
  }

  /** Each commit other than a close raises a path, so their number is bounded whatever arrives. */
  lemma {:induction false} BoundedCommits(cfg: MachineConfig, events: seq<Event>, d: MachineData)
    requires IsRun(cfg, events, d) && Distinct(cfg.pathnames)
    ensures d.step == |d.log|
    ensures d.step <= 2 * |cfg.pathnames| + (if d.output.Some? then 1 else 0) + Closes(d.log)
  {
    var start := Reached(cfg, events);
    var paths := d.state.paths;
    if k: nat :| k < |paths| && paths[k].state.Spent? {
      forall i | 0 <= i < |paths| && paths[i].state.Spent?
        ensures i == k
      {
        assert cfg.pathnames[i] == paths[i].name && cfg.pathnames[k] == paths[k].name;
      }
      SumRankBound(paths, Some(k));
    } else {
      SumRankBound(paths, None);
    }
  }

  /** As a run goes on, the log is extended, the clock advances, and an output stays. */
  lemma {:induction false} HistoryGrows(cfg: MachineConfig, before: seq<Event>, after: seq<Event>)
    requires InitVM(cfg).Some?
    ensures var d, d' := Run(InitVM(cfg).value, before), Run(InitVM(cfg).value, before + after);
            && d.log <= d'.log
            && d.commitAt <= d'.commitAt
            && (d.closed ==> d'.closed)
            && (d.output.Some? ==> d' == d)
  {
    var d := Run(InitVM(cfg).value, before);
    RunConcat(InitVM(cfg).value, before, after);
    RunLater(d, after);
    if d.output.Some? {
      OutputIsFinal(d, after);
    }
  }

  /**
   The whole result of a machine can be read from its log: its step, clock and head, its status
   and the state of every path, whether, when and on which path it was closed. With an output,
   its last commit is what closed it.
   */
  lemma {:induction false} RecordIsHistory(cfg: MachineConfig, events: seq<Event>, d: MachineData)
    requires IsRun(cfg, events, d)
    ensures Told(InitVM(cfg).value.state.paths, d)
    ensures d.step == |d.log| && d.head == Chain(cfg.vmid, d.log)
    ensures d.commitAt == if d.log == [] then cfg.activeAt else d.log[|d.log| - 1].input.stamp
    ensures d.output.Some? ==> d.closedAt == Some(d.commitAt) && d.log[|d.log| - 1].input.path == d.output
  {
    var start := Reached(cfg, events);
  }

  /* ---- The commit chain ---- */

  /** What the chain binds of a commit. */
  function Signed(log: seq<LogEntry>): (s: seq<(string, int)>)
    ensures |s| == |log|
  {
    seq(|log|, i requires 0 <= i < |log| => (log[i].input.wid, log[i].input.stamp))
  }

  lemma {:induction false} ChainBinds(vmid: string, vmid': string, log: seq<LogEntry>, log': seq<LogEntry>)
    ensures Chain(vmid, log) == Chain(vmid', log') <==> vmid == vmid' && Signed(log) == Signed(log')
    decreases |log|
  {
    if log != [] && log' != [] {
      var n, n' := |log| - 1, |log'| - 1;
      ChainBinds(vmid, vmid', log[..n], log'[..n']);
      assert Signed(log) == Signed(log[..n]) + [(log[n].input.wid, log[n].input.stamp)];
      assert Signed(log') == Signed(log'[..n']) + [(log'[n'].input.wid, log'[n'].input.stamp)];
      if Signed(log) == Signed(log') {
        assert Signed(log)[..n] == Signed(log')[..n'];
        assert Signed(log)[n] == Signed(log')[n'];
      }
    } else {
      assert |Signed(log)| == |log| && |Signed(log')| == |log'|;
    }
  }

  /**
   Two runs, of any machines, have the same head exactly when they agree on the machine id and
   on every (wid, stamp) committed.
   */
  lemma {:induction false} HistoryBinding(
    cfg: MachineConfig, events: seq<Event>, d: MachineData, cfg': MachineConfig, events': seq<Event>, d': MachineData)
    requires IsRun(cfg, events, d) && IsRun(cfg', events', d')
    ensures d.head == d'.head <==> cfg.vmid == cfg'.vmid && Signed(d.log) == Signed(d'.log)
    ensures d.head == d'.head ==> d.step == d'.step
  {
    var start := Reached(cfg, events);
    var start' := Reached(cfg', events');
    ChainBinds(cfg.vmid, cfg'.vmid, d.log, d'.log);
    assert |Signed(d.log)| == d.step && |Signed(d'.log)| == d'.step;
  }

  /* ---- Authority ---- */

  /** A guarded statement, found in the run, that carries a member's signature for a label. */
  predicate Backs(w: WitnessData, progId: string, tag: string, pub: string) {
    && w.progId == progId && Label(w.path, w.action) == tag && Guarded(w.path, w.action)
    && SomeSigned(w.sigs, pub)
  }

  /** A statement to this program, with a proof that begins with this key, for exactly this action and path. */
  predicate SignedFor(w: WitnessData, program: ProgramData, input: VMInput, pub: string) {
    && w.progId == program.progId && w.path == input.path && w.action == input.action
    && exists proof | proof in w.sigs :: pub <= proof
  }

  lemma SignedProof(sigs: seq<string>, pub: string)
    requires SomeSigned(sigs, pub)
    ensures exists proof | proof in sigs :: pub <= proof
  {
    var i :| 0 <= i < |sigs| && PubOf(sigs[i]) == pub;
    KeyBegins(sigs[i], pub);
    assert sigs[i] in sigs;
  }

  ghost predicate SomeBacks(ws: seq<WitnessData>, progId: string, tag: string, pub: string) {
    exists w | w in ws :: Backs(w, progId, tag, pub)
  }

  /** Every vote in the stores came from one of the statements `ws`. */
  ghost predicate Sourced(store: seq<StoreEntry>, ws: seq<WitnessData>) {
    forall i, tag, pub | 0 <= i < |store| && pub in Recorded(store[i].votes, tag) ::
      SomeBacks(ws, store[i].progId, tag, pub)
  }

  /** So did the statement of every program's commit, and every vote that the commit was made on. */
  ghost predicate EntrySourced(entry: LogEntry, ws: seq<WitnessData>) {
    entry.origin.ByProgram? ==>
      && entry.origin.statement in ws
      && forall pub | pub in entry.origin.voters ::
           SomeBacks(ws, entry.origin.program.progId, Label(entry.input.path, entry.input.action), pub)
  }

  ghost predicate LogSourced(log: seq<LogEntry>, ws: seq<WitnessData>) {
    forall i | 0 <= i < |log| :: EntrySourced(log[i], ws)
  }

  lemma VotesAreSourced(store: seq<StoreEntry>, ws: seq<WitnessData>, i: nat, w: WitnessData, program: ProgramData)
    requires Sourced(store, ws) && w in ws && i < |store| && store[i].progId == w.progId
    requires VotesOk(store[i].votes, Members(program.rule)) && CheckAccess(program, w).Done?
    ensures Sourced(store[i := store[i].(votes := ExecMethod(program.rule, store[i].votes, w).votes)], ws)
  {
    var votes' := ExecMethod(program.rule, store[i].votes, w).votes;
    var store' := store[i := store[i].(votes := votes')];
    var mine := Label(w.path, w.action);
    if program.rule.Endorse? {
      ExecEndorseKeeps(store[i].votes, mine, w.sigs, program.rule.threshold, program.rule.members);
    }
    forall k, tag, pub | 0 <= k < |store'| && pub in Recorded(store'[k].votes, tag)
      ensures SomeBacks(ws, store'[k].progId, tag, pub)
    {
      if k == i && tag == mine && pub !in Recorded(store[i].votes, tag) {
        assert Backs(w, store'[k].progId, tag, pub);
      } else {
        assert pub in Recorded(store[k].votes, tag);
        assert SomeBacks(ws, store[k].progId, tag, pub);
      }
    }
  }

  ghost predicate StockedFrom(cfg: MachineConfig, d: MachineData, ws: seq<WitnessData>) {
    Stocked(cfg, d) && Sourced(d.state.store, ws) && LogSourced(d.log, ws)
  }

  lemma ScheduleSourced(cfg: MachineConfig, d: MachineData, stopAt: int, ws: seq<WitnessData>)
    requires StockedFrom(cfg, d, ws)
    ensures StockedFrom(cfg, RunSchedule(d, stopAt), ws)
  {
    RunTasksCommits(d, GetTasks(d, stopAt));
    RunTasksLog(d, GetTasks(d, stopAt));
  }

  /** What a schedule run adds to the log comes from tasks. */
  ghost predicate OnlyTasksAdded(log: seq<LogEntry>, log': seq<LogEntry>) {
    log <= log' && forall i | |log| <= i < |log'| :: log'[i].origin.ByTask?
  }

  lemma {:induction false} RunPathsLog(d: MachineData, task: Task, action: string, plist: seq<string>)
    ensures OnlyTasksAdded(d.log, RunPaths(d, task, action, plist).data.log)
    decreases |plist|
  {
    if plist != [] {
      var input := TaskInput(d, task, action, Some(plist[0]));
      UpdateCommits(d, input, ByTask(task));
      RunPathsLog(Update(d, input, ByTask(task)).data, task, action, plist[1..]);
    }
  }

  lemma {:induction false} RunActionsLog(d: MachineData, task: Task, alist: seq<string>, plist: seq<string>)
    ensures OnlyTasksAdded(d.log, RunActions(d, task, alist, plist).log)
    decreases |alist|
  {
    if alist != [] {
      if IsPathAction(alist[0]) {
        RunPathsLog(d, task, alist[0], plist);
        RunActionsLog(RunPaths(d, task, alist[0], plist).data, task, alist[1..], plist);
      } else {
        var input := TaskInput(d, task, alist[0], None);
        UpdateCommits(d, input, ByTask(task));
        RunActionsLog(Update(d, input, ByTask(task)).data, task, alist[1..], plist);
      }
    }
  }

  lemma {:induction false} RunTasksLog(d: MachineData, due: seq<Task>)
    ensures OnlyTasksAdded(d.log, RunTasks(d, due).log)
    decreases |due|
  {
    if due != [] {
      RunActionsLog(d, due[0], TaskActions(due[0]), TaskPaths(due[0], d.state.paths));
      RunTasksLog(Shift(RunTask(d, due[0])), due[1..]);
    }
  }

  lemma RunProgramSourced(cfg: MachineConfig, d: MachineData, w: WitnessData, ws: seq<WitnessData>)
    requires StockedFrom(cfg, d, ws) && w in ws
    ensures StockedFrom(cfg, RunProgram(d, w).data, ws)
  {
    if LoadProgram(d.programs, d.state.store, w).Success? {
      LoadedTogether(cfg, d, w);
      var i := LoadProgram(d.programs, d.state.store, w).value.program;
      var rule := d.programs[i].rule;
      assert VotesOk(d.state.store[i].votes, Members(rule));
      VotesAreSourced(d.state.store, ws, i, w, d.programs[i]);
      ExecMethodKeeps(rule, d.state.store[i].votes, w);
      var exec := ExecMethod(rule, d.state.store[i].votes, w);
      AcceptedSourced(cfg, WithVotes(d, i, exec.votes), i, w, ws);
    }
  }

  /** A commit asked for by a program is made on votes of its store. */
  lemma AcceptedSourced(cfg: MachineConfig, voted: MachineData, i: nat, w: WitnessData, ws: seq<WitnessData>)
    requires StockedFrom(cfg, voted, ws) && i < |voted.programs|
        && voted.state.store[i].progId == voted.programs[i].progId
    requires w in ws
    ensures var origin := ByProgram(voted.programs[i], w,
        Voters(voted.programs[i].rule, voted.state.store[i].votes, w));
            StockedFrom(cfg, Update(voted, WitnessInput(w), origin).data, ws)
  {
    var origin := ByProgram(voted.programs[i], w, Voters(voted.programs[i].rule, voted.state.store[i].votes, w));
    UpdateCommits(voted, WitnessInput(w), origin);
    assert EntrySourced(LogEntry(WitnessInput(w), origin), ws);
  }

  lemma {:induction false} EvalStackSourced(
    cfg: MachineConfig, d: MachineData, stack: seq<WitnessData>, ws: seq<WitnessData>)
    requires StockedFrom(cfg, d, ws) && forall w | w in stack :: w in ws
    ensures StockedFrom(cfg, EvalStack(d, stack).data, ws)
    decreases |stack|
  {
    if stack != [] {
      ScheduleSourced(cfg, d, stack[0].stamp, ws);
      var timed := RunSchedule(d, stack[0].stamp);
      RunProgramSourced(cfg, timed, stack[0], ws);
      EvalStackSourced(cfg, RunProgram(timed, stack[0]).data, stack[1..], ws);
    }
  }

  lemma BatchSourced(cfg: MachineConfig, d: MachineData, batch: seq<WitnessData>, ws: seq<WitnessData>)
    requires StockedFrom(cfg, d, ws) && forall w | w in batch :: w in ws
    ensures StockedFrom(cfg, EvalWitness(d, batch).data, ws)
  {
    var cleared, stack := d.(error := None), GetStatements(batch);
    forall w | w in stack
      ensures w in ws
    {
      assert w in multiset(stack) && w in batch;
    }
    assert StockedFrom(cfg, cleared, ws);
    EvalStackSourced(cfg, cleared, stack, ws);
  }

  lemma ApplySourced(cfg: MachineConfig, d: MachineData, event: Event, ws: seq<WitnessData>)
    requires StockedFrom(cfg, d, ws)
    requires event.Statements? ==> forall w | w in event.ws :: w in ws
    ensures StockedFrom(cfg, Apply(d, event).data, ws)
  {
    match event {
      case Statements(batch) => BatchSourced(cfg, d, batch, ws);
      case Poll(t) => ScheduleSourced(cfg, d, t, ws);
    }
  }

  lemma {:induction false} RunSourced(cfg: MachineConfig, d: MachineData, events: seq<Event>, ws: seq<WitnessData>)
    requires StockedFrom(cfg, d, ws)
    requires forall w | w in Audit.StatementsOf(events) :: w in ws
    ensures StockedFrom(cfg, Run(d, events), ws)
    decreases |events|
  {
    if events != [] {
      ApplySourced(cfg, d, events[0], ws);
      RunSourced(cfg, Apply(d, events[0]).data, events[1..], ws);
    }
  }

  /** The pre-image of the lock comes first of the arguments, and a member's proof first of the proofs. */
  predicate Opens(lock: HashLock, members: seq<string>, w: WitnessData) {
    && |w.args| > 0 && IsHash(w.args[0]) && Sha256(w.args[0]) == lock
    && |w.sigs| > 0 && IsHex(w.sigs[0]) && exists m | m in members :: m <= w.sigs[0]
  }

  /**
   What stands behind a program's commit: a statement that was submitted, and the votes of
   distinct members, as many as the threshold, each from a statement for the same action and
   path; or the pre-image of the lock with a member's proof.
   */
  ghost predicate Backed(entry: LogEntry, ws: seq<WitnessData>) {
    entry.origin.ByProgram? ==>
      && entry.origin.statement in ws
      && match entry.origin.program.rule
         case Endorse(threshold, members) =>
           && Reaches(|entry.origin.voters|, threshold) && Distinct(entry.origin.voters)
           && forall v | v in entry.origin.voters ::
                v in members && exists w | w in ws :: SignedFor(w, entry.origin.program, entry.input, v)
         case Claim(lock, members) => Opens(lock, members, entry.origin.statement)
         case NoMethod(_) => false
  }

  /** A commit's place in the terms: a scheduled task's own action, path and time, or what a program's terms permit. */
  ghost predicate Entitled(cfg: MachineConfig, entry: LogEntry) {
    var input := entry.input;
    match entry.origin
    case ByTask(task) =>
      && task in cfg.schedule && input.wid == cfg.vmid && input.stamp == cfg.activeAt + task.timer
      && input.action in GetAccessList(task.actions, VALID_ACTIONS).wlist
      && (if input.path.None? then input.action == "close"
          else input.action in PATH_ACTIONS && input.path.value in GetAccessList(task.paths, cfg.pathnames).wlist)
    case ByProgram(program, w, _) =>
      && program in cfg.programs && program.progId == w.progId && Permits(program, input.action, input.path)
      && input == VMInput(w.action, w.path, w.stamp, w.wid)
  }

  lemma AuthorizedEntitled(cfg: MachineConfig, store: seq<StoreEntry>, entry: LogEntry)
    requires Authorized(cfg, store, entry) && CommitAction(entry.input)
    ensures Entitled(cfg, entry)
  {
    PathActionsListed(entry.input.action);
    assert VerbOf(entry.input.action).Close? ==> entry.input.action == "close";
    if entry.origin.ByProgram? {
      AccessIff(entry.origin.program, entry.origin.statement);
    }
  }

  lemma ClaimOpened(cfg: MachineConfig, store: seq<StoreEntry>, entry: LogEntry)
    requires Authorized(cfg, store, entry) && entry.origin.ByProgram? && entry.origin.program.rule.Claim?
    ensures Opens(entry.origin.program.rule.lock, entry.origin.program.rule.members, entry.origin.statement)
  {
    var w := entry.origin.statement;
    KeyBegins(w.sigs[0], "");
  }

  lemma EntryCommittable(cfg: MachineConfig, d: MachineData, k: nat)
    requires LogInv(cfg, d) && AuthInv(cfg, d) && k < |d.log| && d.log[k].origin.ByProgram?
    requires forall p | p in cfg.pathnames :: '/' !in p
    ensures Committable(d.log[k].input.path, d.log[k].input.action)
  {
    assert Authorized(cfg, d.state.store, d.log[k]);
    assert CommitAction(d.log[k].input);
  }

  /**
   Every commit is either an action and path of a scheduled task, at that task's due time,
   or was asked for by a statement whose program grants that action and path. A commit by
   an endorse program was made on the votes of distinct members, as many as its threshold,
   each of whom signed a statement submitted so far for exactly that path and action,
   whatever other statements named; those votes stay in the program's store. A commit by a
   claim program came with the pre-image of its lock and a member's proof.
   */
  lemma {:induction false} Authority(cfg: MachineConfig, events: seq<Event>, d: MachineData, k: nat)
    requires IsRun(cfg, events, d) && k < |d.log|
    requires forall p | p in cfg.pathnames :: '/' !in p
    ensures Authorized(cfg, d.state.store, d.log[k])
    ensures Entitled(cfg, d.log[k])
    ensures Backed(d.log[k], Audit.StatementsOf(events))
  {
    var start := Reached(cfg, events);
    var ws := Audit.StatementsOf(events);
    InitHolds(cfg);
    RunSourced(cfg, InitVM(cfg).value, events, ws);
    assert Authorized(cfg, d.state.store, d.log[k]) && EntrySourced(d.log[k], ws);
    AuthorizedEntitled(cfg, d.state.store, d.log[k]);
    if d.log[k].origin.ByProgram? {
      EntryCommittable(cfg, d, k);
      VotersSigned(cfg, d.state.store, d.log[k], ws);
    }
  }

  lemma VotersSigned(cfg: MachineConfig, store: seq<StoreEntry>, entry: LogEntry, ws: seq<WitnessData>)
    requires Authorized(cfg, store, entry) && EntrySourced(entry, ws) && entry.origin.ByProgram?
    requires Committable(entry.input.path, entry.input.action)
    ensures Backed(entry, ws)
  {
    var tag := Label(entry.input.path, entry.input.action);
    if entry.origin.program.rule.Claim? {
      ClaimOpened(cfg, store, entry);
    }
    forall v | v in entry.origin.voters
      ensures exists w | w in ws :: SignedFor(w, entry.origin.program, entry.input, v)
    {
      var w :| w in ws && Backs(w, entry.origin.program.progId, tag, v);
      LabelInjective(w.path, w.action, entry.input.path, entry.input.action);
      SignedProof(w.sigs, v);
      assert SignedFor(w, entry.origin.program, entry.input, v);
    }
  }

  /** So the votes behind a commit came before it: the statements of the run up to it are enough. */
  lemma {:induction false} AuthorityAtCommit(
    cfg: MachineConfig, before: seq<Event>, after: seq<Event>, d: MachineData, k: nat)
    requires IsRun(cfg, before + after, d) && k < |Run(InitVM(cfg).value, before).log|
    requires forall p | p in cfg.pathnames :: '/' !in p
    ensures k < |d.log| && Backed(d.log[k], Audit.StatementsOf(before))
  {
    var mid := Run(InitVM(cfg).value, before);
    Authority(cfg, before, mid, k);
    HistoryGrows(cfg, before, after);
  }

  /* ---- Locking ---- */

  lemma OnlyLockInUnlock(action: string)
    requires action in VALID_ACTIONS && Contains("unlock", action)
    ensures action == "lock"
  {
    var i :| 0 <= i <= 6 && action <= "unlock"[i..];
    var s := "unlock";
    assert action != [] ==> i < 6 && action[0] == s[i];
    assert s == ['u', 'n', 'l', 'o', 'c', 'k'];
    assert action in ["close", "lock", "release", "dispute", "resolve", "spend"];
  }

  /**
   The unanchored pattern test finds `unlock` wherever it finds `lock`, so with expressions
   that passed the proposal check a path starts locked exactly when a program may lock it.
   */
  lemma {:induction false} StartsLockedIff(cfg: MachineConfig, i: nat)
    requires InitVM(cfg).Some? && i < |cfg.pathnames|
    requires forall p | p in cfg.programs :: CheckRegex(VALID_ACTIONS, p.actions)
    ensures InitVM(cfg).value.state.paths[i].state.Locked? <==> Lockable(cfg, cfg.pathnames[i])
  {
    InitHolds(cfg);
    var start := InitVM(cfg).value.state.paths;
    var path := cfg.pathnames[i];
    assert start[i].name == PathNames(start)[i];
    if Lockable(cfg, path) {
      LockableStartsLocked(cfg, start, i);
    }
    if AnyGrants(cfg.programs, "unlock", path) {
      var p :| p in cfg.programs && Grants(p, "unlock", path);
      if p.actions != "*" {
        var alt :| alt in Split(p.actions, '|') && Contains("unlock", alt);
        OnlyLockInUnlock(alt);
        ContainsSelf("lock");
      }
      assert Grants(p, "lock", path);
    }
  }

  /**
   A machine can be made exactly when every path that some program may dispute, some program
   may resolve; nothing has then been committed, voted or settled in it, and it runs the
   configured tasks in order of their timers.
   */
  lemma {:induction false} InitIff(cfg: MachineConfig)
    ensures InitVM(cfg).Some? <==>
              forall path | path in cfg.pathnames && AnyGrants(cfg.programs, "dispute", path) ::
                AnyGrants(cfg.programs, "resolve", path)
    ensures InitVM(cfg).Some? ==>
              var d := InitVM(cfg).value;
              && d.log == [] && !d.closed && d.output.None? && d.error.None?
              && (forall i | 0 <= i < |d.state.store| :: d.state.store[i].votes == [])
              && multiset(d.tasks) == multiset(cfg.schedule)
              && (forall i, j | 0 <= i < j < |d.tasks| :: d.tasks[i].timer <= d.tasks[j].timer)
  {
    StatesExistIff(cfg.pathnames, cfg.programs);
    Sorting.SortBySorted(cfg.schedule, TaskTimer);
    var tasks := InitTasks(cfg.schedule);
    assert forall i, j | 0 <= i < j < |tasks| :: TaskTimer(tasks[i]) <= TaskTimer(tasks[j]);
  }

  /**
   A program without paths is read there as if its paths were the text `null`: it grants its
   actions on the paths whose names hold that text, though no statement to it may name a path.
   */
  lemma PathlessGrants(program: ProgramData, action: string, path: string, w: WitnessData)
    requires program.paths.None?
    ensures Grants(program, action, path) <==> Contains(path, "null") && Regex(action, program.actions)
    ensures w.path.Some? ==> !CheckAccess(program, w).Done?
  {
    assert "*"[0] == '*' && "null"[0] == 'n';
    assert Split("null", '|') == ["null"];
  }

  lemma {:induction false} StatesExistIff(pathnames: seq<string>, programs: seq<ProgramData>)
    ensures InitVMState(pathnames, programs).Some? <==>
              forall path | path in pathnames && AnyGrants(programs, "dispute", path) ::
                AnyGrants(programs, "resolve", path)
  {
    if pathnames != [] {
      StatesExistIff(pathnames[1..], programs);
      assert forall path :: path in pathnames <==> path == pathnames[0] || path in pathnames[1..];
    }
  }

  lemma AccessGrants(cfg: MachineConfig, program: ProgramData, w: WitnessData)
    requires program in cfg.programs && CheckAccess(program, w).Done? && VerbOf(w.action).Lock?
    ensures w.path.Some? && Lockable(cfg, w.path.value)
  {
    assert Grants(program, "lock", w.path.value);
  }

  /**
   Where expressions are alternations of labels, no statement ever commits a lock; and on a
   path that some program may lock, nothing ever commits a lock or a spend: it can only be
   disputed and resolved upon.
   */
  lemma {:induction false} ProgramsNeverLock(cfg: MachineConfig, events: seq<Event>, d: MachineData, k: nat)
    requires IsRun(cfg, events, d) && k < |d.log|
    ensures LeavesLocked(cfg, d.log[k])
  {
    var start := Reached(cfg, events);
    NeverLocked(cfg, d, k);
  }

  /** Not a program's lock, nor a lock or spend on a path that a program may lock. */
  predicate LeavesLocked(cfg: MachineConfig, entry: LogEntry) {
    var verb := VerbOf(entry.input.action);
    && (entry.origin.ByProgram? ==> !verb.Lock?)
    && (entry.input.path.Some? && Lockable(cfg, entry.input.path.value) ==> !verb.Lock? && !verb.Spend?)
  }

  lemma NeverLocked(cfg: MachineConfig, d: MachineData, k: nat)
    requires AuthInv(cfg, d) && LockInv(cfg, d) && k < |d.log|
    ensures LeavesLocked(cfg, d.log[k])
  {
    var entry := d.log[k];
    assert Authorized(cfg, d.state.store, entry);
    if entry.origin.ByProgram? && VerbOf(entry.input.action).Lock? {
      AccessGrants(cfg, entry.origin.program, entry.origin.statement);
    }
  }
}
