/**
 What statements can count on: a dispute can be answered, an admitted statement never makes
 the evaluator throw, and which endorse programs can ever accept.
 */
module Statements {
  import opened Wrappers
  import opened Text
  import opened Machine
  import opened Frames
  import opened Votes
  import opened Invariants
  import opened Reachable
  import Polling

  /* ---- Parameters ---- */

  /**
   The parameter check of a program's method; a pubkey is checked for its format only, the
   curve being outside this model. A threshold that is not a number passes it.
   */
  predicate CheckParams(rule: Method) {
    match rule
    case Endorse(threshold, members) =>
      && (threshold.Num? ==> 0.0 < threshold.value <= |members| as real)
      && forall pub | pub in members :: IsHash(pub)
    case Claim(lock, members) => lock.Sha256? && forall pub | pub in members :: IsHash(pub)
    case NoMethod(_) => false
  }

  /** The different members of a list. */
  function Unique(members: seq<string>): (u: seq<string>)
    ensures Distinct(u) && forall m :: m in u <==> m in members
  {
    if members == [] then []
    else
      var rest := Unique(members[1..]);
      if members[0] in rest then rest else [members[0]] + rest
  }

  lemma {:induction false} DistinctWithin(s: seq<string>, t: seq<string>)
    requires Distinct(s) && forall x | x in s :: x in t
    ensures |s| <= |t|
  {
    if s != [] {
      assert s[0] in t;
      var i :| 0 <= i < |t| && t[i] == s[0];
      var t' := t[..i] + t[i + 1..];
      forall x | x in s[1..]
        ensures x in t'
      {
        var k :| 1 <= k < |s| && s[k] == x;
        assert x in s && x in t;
        var j :| 0 <= j < |t| && t[j] == x;
        assert if j < i then t'[j] == x else t'[j - 1] == x;
      }
      DistinctWithin(s[1..], t');
    }
  }

  /** Signing in turn, the members of a list of distinct ones reach any threshold within its length. */
  lemma {:induction false} VotesReach(
    votes: seq<Vote>, tag: string, sigs: seq<string>, threshold: real, members: seq<string>)
    requires Distinct(sigs) && sigs != [] && forall s | s in sigs :: s in members && |s| == 64
    requires forall s | s in sigs :: s !in Recorded(votes, tag)
    requires VotesOk(votes, members)
    requires threshold <= (|Recorded(votes, tag)| + |sigs|) as real
    ensures ExecEndorse(votes, tag, sigs, Num(threshold), members).accepted
    decreases |sigs|
  {
    var pub := PubOf(sigs[0]);
    assert sigs[0] in sigs && pub == sigs[0];
    var next := WithVote(votes, tag, pub).value;
    WithVoteKeeps(votes, tag, pub, members, next);
    if !Reaches(|Recorded(next, tag)|, Num(threshold)) {
      forall s | s in sigs[1..]
        ensures s in sigs && s !in Recorded(next, tag)
      {
        var k :| 1 <= k < |sigs| && sigs[k] == s;
      }
      VotesReach(next, tag, sigs[1..], threshold, members);
    }
  }

  /** Whether any signatures at all make an endorse program accept, with the votes it holds. */
  ghost predicate CanAccept(votes: seq<Vote>, threshold: JsNumber, members: seq<string>, tag: string) {
    exists sigs :: ExecEndorse(votes, tag, sigs, threshold, members).accepted
  }

  /** A threshold within the different members, and a member whose vote is still to come. */
  predicate VotesLeft(votes: seq<Vote>, threshold: JsNumber, members: seq<string>, tag: string) {
    && threshold.Num? && threshold.value <= |Unique(members)| as real
    && exists m | m in members :: m !in Recorded(votes, tag)
  }

  function NotIn(pubs: seq<string>): string -> bool {
    (m: string) => m !in pubs
  }

  lemma {:induction false} FilterDistinct(s: seq<string>, keep: string -> bool)
    requires Distinct(s)
    ensures Distinct(Filter(s, keep))
  {
    if s != [] {
      FilterDistinct(s[1..], keep);
      assert forall x | x in s[1..] :: x != s[0];
    }
  }

  /**
   The parameter check compares the threshold with the number of parameters, repeats
   included. A program can accept exactly when its threshold is a number no larger than the
   number of different members and some member has not voted on the label yet: votes cast
   for an update that was refused are spent.
   */
  lemma {:induction false} CanAcceptIff(votes: seq<Vote>, threshold: JsNumber, members: seq<string>, tag: string)
    requires (forall m | m in members :: |m| == 64) && VotesOk(votes, members)
    ensures CanAccept(votes, threshold, members, tag) <==> VotesLeft(votes, threshold, members, tag)
  {
    var u, pubs := Unique(members), Recorded(votes, tag);
    if CanAccept(votes, threshold, members, tag) {
      var sigs :| ExecEndorse(votes, tag, sigs, threshold, members).accepted;
      AcceptedWithin(votes, tag, sigs, threshold, members);
    }
    if VotesLeft(votes, threshold, members, tag) {
      var sigs := Filter(u, NotIn(pubs));
      FilterDistinct(u, NotIn(pubs));
      var m :| m in members && m !in pubs;
      assert m in sigs;
      DistinctWithin(u, pubs + sigs);
      VotesReach(votes, tag, sigs, threshold.value, members);
    }
  }

  lemma AcceptedWithin(votes: seq<Vote>, tag: string, sigs: seq<string>, threshold: JsNumber, members: seq<string>)
    requires VotesOk(votes, members) && ExecEndorse(votes, tag, sigs, threshold, members).accepted
    ensures VotesLeft(votes, threshold, members, tag)
  {
    ExecEndorseKeeps(votes, tag, sigs, threshold, members);
    var next := ExecEndorse(votes, tag, sigs, threshold, members).votes;
    var pubs := Recorded(next, tag);
    assert Distinct(pubs) && forall pub | pub in pubs :: pub in members;
    DistinctWithin(pubs, Unique(members));
    assert PubOf(sigs[0]) in members && PubOf(sigs[0]) !in Recorded(votes, tag);
  }

  lemma {:induction false} UniqueOfDistinct(members: seq<string>)
    requires Distinct(members)
    ensures Unique(members) == members
  {
    if members != [] {
      UniqueOfDistinct(members[1..]);
      assert forall m | m in members[1..] :: m != members[0];
    }
  }

  /**
   For distinct keys and a number, the check passes exactly the programs that need a vote to
   accept, and can accept.
   */
  lemma {:induction false} CheckParamsIff(threshold: real, members: seq<string>, tag: string)
    requires Distinct(members) && forall m | m in members :: IsHash(m)
    ensures CheckParams(Endorse(Num(threshold), members)) <==>
              0.0 < threshold && CanAccept([], Num(threshold), members, tag)
  {
    CanAcceptIff([], Num(threshold), members, tag);
    UniqueOfDistinct(members);
    if members != [] {
      assert members[0] in members && members[0] !in Recorded([], tag);
    }
  }

  /** Two parameter lists that pass the check, for programs that can never accept. */
  lemma {:induction false} RepeatedMemberNeverAccepts(pub: string, tag: string)
    requires IsHash(pub)
    ensures CheckParams(Endorse(Num(2.0), [pub, pub])) && !CanAccept([], Num(2.0), [pub, pub], tag)
    ensures CheckParams(Endorse(NaN, [pub])) && !CanAccept([], NaN, [pub], tag)
  {
    CanAcceptIff([], Num(2.0), [pub, pub], tag);
    DistinctWithin(Unique([pub, pub]), [pub]);
    CanAcceptIff([], NaN, [pub], tag);
  }

  /* ---- Disputes ---- */

  ghost predicate DistinctIds(programs: seq<ProgramData>) {
    forall i, j | 0 <= i < j < |programs| :: programs[i].progId != programs[j].progId
  }

  lemma {:induction false} FoundById(programs: seq<ProgramData>, stores: seq<StoreEntry>, i: nat)
    requires i < |programs| == |stores| && DistinctIds(programs)
    requires forall k | 0 <= k < |stores| :: stores[k].progId == programs[k].progId
    ensures FindProgram(programs, programs[i].progId) == Some(i)
    ensures FindStore(stores, programs[i].progId) == Some(i)
  {}

  /**
   If a program disputed a path and the machine has neither settled nor closed, then some
   program is loaded for a resolve on that same path, and the resolve is accepted at any
   stamp from the last commit to the expiration: it settles the machine on the path.
   */
  lemma {:induction false} DisputeIsAnswerable(
    cfg: MachineConfig, events: seq<Event>, d: MachineData, k: nat, stamp: int) returns (r: nat)
    requires IsRun(cfg, events, d) && DistinctIds(cfg.programs)
    requires forall p | p in cfg.programs :: p.paths.Some? && CheckParams(p.rule)
    requires d.output.None? && Closes(d.log) == 0 && d.commitAt <= stamp < d.expiresAt
    requires k < |d.log| && d.log[k].origin.ByProgram? && VerbOf(d.log[k].input.action).Dispute?
    ensures var path := d.log[k].input.path;
            && r < |d.programs| && path.Some? && MayResolve(d.programs[r], path.value)
            && d.state.status.DisputedStatus? && !d.closed && path.value in d.pathnames
            && (forall w: WitnessData | w.progId == d.programs[r].progId && w.action == "resolve" && w.path == path ::
                  LoadProgram(d.programs, d.state.store, w) == Success(Loaded(r, r)))
            && (forall wid, origin ::
                  var next := Update(d, VMInput("resolve", path, stamp, wid), origin);
                  next.outcome.Done? && next.data.output == path)
  {
    var start := DisputeStands(cfg, events, d, k);
    var path := d.log[k].input.path.value;
    r := ResolverOf(cfg, start, d.log[k].origin.program, d.log[k].origin.statement);
    ResolversLoad(cfg, d, r, path);
    ResolveAccepted(cfg, d, path, stamp);
  }

  /** What the invariant says of a machine that a program disputed, and that has not settled or closed. */
  lemma DisputeStands(cfg: MachineConfig, events: seq<Event>, d: MachineData, k: nat) returns (start: seq<PathEntry>)
    requires IsRun(cfg, events, d) && d.output.None? && Closes(d.log) == 0
    requires k < |d.log| && d.log[k].origin.ByProgram? && VerbOf(d.log[k].input.action).Dispute?
    ensures var program, w := d.log[k].origin.program, d.log[k].origin.statement;
            && program in cfg.programs && CheckAccess(program, w).Done? && d.log[k].input == WitnessInput(w)
            && w.path.Some? && w.path.value in cfg.pathnames
    ensures IsStart(cfg, start) && Shape(cfg, d) && Stocked(cfg, d)
    ensures d.state.status.DisputedStatus? && !d.closed
  {
    start := Reached(cfg, events);
    assert Authorized(cfg, d.state.store, d.log[k]);
    assert HasDispute(d.log);
  }

  lemma ResolversLoad(cfg: MachineConfig, d: MachineData, r: nat, path: string)
    requires Stocked(cfg, d) && DistinctIds(cfg.programs) && r < |cfg.programs| && MayResolve(cfg.programs[r], path)
    ensures forall w: WitnessData | w.progId == d.programs[r].progId && w.action == "resolve" && w.path == Some(path) ::
              LoadProgram(d.programs, d.state.store, w) == Success(Loaded(r, r))
  {
    FoundById(d.programs, d.state.store, r);
    forall w: WitnessData | w.progId == d.programs[r].progId && w.action == "resolve" && w.path == Some(path)
      ensures LoadProgram(d.programs, d.state.store, w) == Success(Loaded(r, r))
    {
      MayResolveIff(d.programs[r], w, path);
    }
  }

  lemma ResolverOf(cfg: MachineConfig, start: seq<PathEntry>, program: ProgramData, w: WitnessData) returns (r: nat)
    requires IsStart(cfg, start) && program in cfg.programs && CheckAccess(program, w).Done?
    requires VerbOf(w.action).Dispute? && w.path.Some? && w.path.value in cfg.pathnames
    requires forall p | p in cfg.programs :: p.paths.Some? && CheckParams(p.rule)
    ensures r < |cfg.programs| && MayResolve(cfg.programs[r], w.path.value)
  {
    var path := w.path.value;
    assert Grants(program, "dispute", path);
    var i :| 0 <= i < |cfg.pathnames| && cfg.pathnames[i] == path;
    assert start[i].name == path && InitPathState(path, cfg.programs).Some?;
    var p :| p in cfg.programs && Grants(p, "resolve", path);
    r :| 0 <= r < |cfg.programs| && cfg.programs[r] == p;
  }

  /** A resolve on a known path of a disputed machine, in its time, settles it on that path. */
  lemma ResolveCommits(d: MachineData, input: VMInput, origin: Origin)
    requires d.state.status.DisputedStatus? && CheckUpdateStamp(d, input.stamp).Done?
    requires input.action == "resolve" && input.path.Some? && FindPath(d.state.paths, input.path.value).Some?
    ensures var next := Update(d, input, origin);
            next.outcome.Done? && next.data.closed && next.data.output == input.path
  {
  }

  lemma ResolveAccepted(cfg: MachineConfig, d: MachineData, path: string, stamp: int)
    requires Shape(cfg, d) && d.state.status.DisputedStatus? && path in cfg.pathnames
    requires d.commitAt <= stamp < d.expiresAt
    ensures forall wid, origin ::
              var next := Update(d, VMInput("resolve", Some(path), stamp, wid), origin);
              next.outcome.Done? && next.data.output == Some(path)
  {
    NamesFound(d.state.paths, path);
    forall wid, origin
      ensures var next := Update(d, VMInput("resolve", Some(path), stamp, wid), origin);
              next.outcome.Done? && next.data.output == Some(path)
    {
      ResolveCommits(d, VMInput("resolve", Some(path), stamp, wid), origin);
    }
  }

  /** A program that may resolve on a path: its expressions grant it, and its method can be loaded. */
  predicate MayResolve(program: ProgramData, path: string) {
    && Regex("resolve", program.actions) && path != "null"
    && program.paths.Some? && Regex(path, program.paths.value)
    && CheckMethod(program.rule).Done?
  }

  lemma MayResolveIff(program: ProgramData, w: WitnessData, path: string)
    requires w.action == "resolve" && w.path == Some(path)
    ensures CheckAccess(program, w).Done? <==> MayResolve(program, path)
  {
  }

  /** A disputed machine, not closed, in its time, with nothing due before the stamp. */
  ghost predicate AwaitsResolve(d: MachineData, path: string, stamp: int) {
    && d.output.None? && !d.closed && d.state.status.DisputedStatus?
    && path in d.pathnames && d.commitAt <= stamp < d.expiresAt && GetTasks(d, stamp) == []
  }

  /** A statement whose program is found at one index of programs and stores, and may act. */
  ghost predicate LoadsAt(d: MachineData, i: nat, w: WitnessData) {
    && i < |d.programs| == |d.state.store|
    && FindProgram(d.programs, w.progId) == Some(i) && FindStore(d.state.store, w.progId) == Some(i)
    && CheckAccess(d.programs[i], w).Done?
  }

  lemma ResolveRun(d: MachineData, i: nat, w: WitnessData, path: string)
    requires LoadsAt(d, i, w) && w.action == "resolve" && w.path == Some(path)
    requires AwaitsResolve(d, path, w.stamp) && d.pathnames == PathNames(d.state.paths)
    ensures var exec, next := ExecMethod(d.programs[i].rule, d.state.store[i].votes, w), RunProgram(d, w);
            if exec.accepted then next.outcome.Done? && next.data.closed && next.data.output == Some(path)
            else !next.data.closed && next.data.output.None?
  {
    AcceptedIsDone(d.programs[i].rule, d.state.store[i].votes, w);
    var exec := ExecMethod(d.programs[i].rule, d.state.store[i].votes, w);
    var voted := WithVotes(d, i, exec.votes);
    assert LoadProgram(d.programs, d.state.store, w) == Success(Loaded(i, i));
    NamesFound(d.state.paths, path);
    ResolveCommits(voted, WitnessInput(w), ByProgram(d.programs[i], w, Voters(d.programs[i].rule, exec.votes, w)));
  }

  lemma NothingDue(d: MachineData, stamp: int)
    requires GetTasks(d, stamp) == []
    ensures RunSchedule(d.(error := None), stamp) == d.(error := None)
  {
    var cleared := d.(error := None);
    Polling.FilterSame(d.tasks, (task: Task) => IsDue(d, task, stamp), (task: Task) => IsDue(cleared, task, stamp));
    assert GetTasks(cleared, stamp) == [];
  }

  /** Evaluating one statement when nothing is due is running its program. */
  lemma EvaluatedAlone(d: MachineData, w: WitnessData)
    requires d.output.None? && !d.closed && GetTasks(d, w.stamp) == []
    requires var next := RunProgram(d.(error := None), w).data; next.closed || next.output.None?
    ensures var next := RunProgram(d.(error := None), w);
            EvalWitness(d, [w]).data.output == if next.outcome.Throw? then None else next.data.output
  {
    NothingDue(d, w.stamp);
    assert GetStatements([w]) == [w] && [w][1..] == [];
    var next := RunProgram(d.(error := None), w);
    assert EvalStack(next.data, []) == Step(Done, next.data);
  }

  /** Evaluating one resolve: it settles the machine exactly when its program's method accepts it. */
  lemma ResolveEvaluated(d: MachineData, i: nat, w: WitnessData, path: string)
    requires LoadsAt(d, i, w) && w.action == "resolve" && w.path == Some(path)
    requires AwaitsResolve(d, path, w.stamp) && d.pathnames == PathNames(d.state.paths)
    ensures EvalWitness(d, [w]).data.output
         == if ExecMethod(d.programs[i].rule, d.state.store[i].votes, w).accepted then Some(path) else None
  {
    var cleared := d.(error := None);
    Polling.FilterSame(d.tasks, (task: Task) => IsDue(d, task, w.stamp), (task: Task) => IsDue(cleared, task, w.stamp));
    assert AwaitsResolve(cleared, path, w.stamp);
    ResolveRun(cleared, i, w, path);
    EvaluatedAlone(d, w);
  }

  lemma AcceptedIsDone(rule: Method, votes: seq<Vote>, w: WitnessData)
    ensures ExecMethod(rule, votes, w).accepted ==> ExecMethod(rule, votes, w).outcome.Done?
  {
    if rule.Endorse? {
      AcceptedEndorse(votes, Label(w.path, w.action), w.sigs, rule.threshold, rule.members);
    }
  }

  lemma {:induction false} AcceptedEndorse(
    votes: seq<Vote>, tag: string, sigs: seq<string>, threshold: JsNumber, members: seq<string>)
    ensures var exec := ExecEndorse(votes, tag, sigs, threshold, members); exec.accepted ==> exec.outcome.Done?
    decreases |sigs|
  {
    if sigs != [] && PubOf(sigs[0]) in members && WithVote(votes, tag, PubOf(sigs[0])).Some? {
      AcceptedEndorse(WithVote(votes, tag, PubOf(sigs[0])).value, tag, sigs[1..], threshold, members);
    }
  }

  /** A resolve for a path, with any other contents. */
  predicate IsResolve(w: WitnessData, path: string, stamp: int, wid: string) {
    w.action == "resolve" && w.path == Some(path) && w.stamp == stamp && w.wid == wid
  }

  /**
   What a method needs to accept a resolve still: for an endorsement, votes; for a claim, a
   pre-image that is a hash, and a member.
   */
  predicate Willing(rule: Method, votes: seq<Vote>, tag: string) {
    match rule
    case Endorse(threshold, members) => VotesLeft(votes, threshold, members, tag)
    case Claim(lock, members) => lock.Sha256? && IsHash(lock.preimage) && members != []
    case NoMethod(_) => false
  }

  /** Whether some statement to a program makes a whole evaluation settle the machine on the path. */
  ghost predicate CanResolve(d: MachineData, progId: string, path: string, stamp: int, wid: string) {
    exists w: WitnessData | IsResolve(w, path, stamp, wid) && w.progId == progId ::
      EvalWitness(d, [w]).data.output == Some(path)
  }

  lemma WillingAccepts(
    program: ProgramData, votes: seq<Vote>, path: string, stamp: int, wid: string) returns (w: WitnessData)
    requires CheckParams(program.rule) && VotesOk(votes, Members(program.rule))
    requires Willing(program.rule, votes, Label(Some(path), "resolve"))
    ensures IsResolve(w, path, stamp, wid) && w.progId == program.progId && ExecMethod(program.rule, votes, w).accepted
  {
    match program.rule {
      case Endorse(threshold, members) =>
        CanAcceptIff(votes, threshold, members, Label(Some(path), "resolve"));
        var sigs :| ExecEndorse(votes, Label(Some(path), "resolve"), sigs, threshold, members).accepted;
        w := WitnessData(wid, program.progId, "resolve", Some(path), [], sigs, stamp);
      case Claim(lock, members) =>
        assert members[0] in members && PubOf(members[0]) == members[0];
        w := WitnessData(wid, program.progId, "resolve", Some(path), [lock.preimage], [members[0]], stamp);
    }
  }

  lemma AcceptsWilling(rule: Method, votes: seq<Vote>, w: WitnessData)
    requires CheckParams(rule) && VotesOk(votes, Members(rule)) && ExecMethod(rule, votes, w).accepted
    ensures Willing(rule, votes, Label(w.path, w.action))
  {
    if rule.Endorse? {
      AcceptedWithin(votes, Label(w.path, w.action), w.sigs, rule.threshold, rule.members);
    }
  }

  lemma ProgramResolvesIff(d: MachineData, i: nat, path: string, stamp: int, wid: string)
    requires AwaitsResolve(d, path, stamp) && d.pathnames == PathNames(d.state.paths)
    requires i < |d.programs| == |d.state.store|
    requires FindProgram(d.programs, d.programs[i].progId) == FindStore(d.state.store, d.programs[i].progId) == Some(i)
    requires CheckParams(d.programs[i].rule) && VotesOk(d.state.store[i].votes, Members(d.programs[i].rule))
    ensures CanResolve(d, d.programs[i].progId, path, stamp, wid)
       <==> MayResolve(d.programs[i], path)
            && Willing(d.programs[i].rule, d.state.store[i].votes, Label(Some(path), "resolve"))
  {
    var program, votes := d.programs[i], d.state.store[i].votes;
    if CanResolve(d, program.progId, path, stamp, wid) {
      var w: WitnessData :| IsResolve(w, path, stamp, wid) && w.progId == program.progId
          && EvalWitness(d, [w]).data.output == Some(path);
      OnlyWilling(d, i, w, path);
    }
    if MayResolve(program, path) && Willing(program.rule, votes, Label(Some(path), "resolve")) {
      var w := WillingAccepts(program, votes, path, stamp, wid);
      MayResolveIff(program, w, path);
      ResolveEvaluated(d, i, w, path);
    }
  }

  lemma OnlyWilling(d: MachineData, i: nat, w: WitnessData, path: string)
    requires AwaitsResolve(d, path, w.stamp) && d.pathnames == PathNames(d.state.paths)
    requires i < |d.programs| == |d.state.store| && w.action == "resolve" && w.path == Some(path)
    requires FindProgram(d.programs, w.progId) == FindStore(d.state.store, w.progId) == Some(i)
    requires CheckParams(d.programs[i].rule) && VotesOk(d.state.store[i].votes, Members(d.programs[i].rule))
    requires EvalWitness(d, [w]).data.output == Some(path)
    ensures MayResolve(d.programs[i], path)
        && Willing(d.programs[i].rule, d.state.store[i].votes, Label(Some(path), "resolve"))
  {
    MayResolveIff(d.programs[i], w, path);
    if CheckAccess(d.programs[i], w).Done? {
      ResolveEvaluated(d, i, w, path);
      AcceptsWilling(d.programs[i].rule, d.state.store[i].votes, w);
    } else {
      NotLoaded(d, w);
    }
  }

  /** A statement that is not loaded settles nothing. */
  lemma NotLoaded(d: MachineData, w: WitnessData)
    requires d.output.None? && !d.closed && GetTasks(d, w.stamp) == []
    requires LoadProgram(d.programs, d.state.store, w).Failure?
    ensures EvalWitness(d, [w]).data.output.None?
  {
    EvaluatedAlone(d, w);
  }

  /**
   Some statement to an endorse program that may resolve on a path makes a whole evaluation
   settle a disputed machine on it exactly when the program has votes left on that resolve.
   */
  lemma {:induction false} EndorseResolvesIff(
    cfg: MachineConfig, events: seq<Event>, d: MachineData, i: nat, path: string, stamp: int, wid: string)
    requires IsRun(cfg, events, d) && DistinctIds(cfg.programs) && AwaitsResolve(d, path, stamp)
    requires i < |cfg.programs| == |d.state.store| && cfg.programs[i].rule.Endorse? && MayResolve(cfg.programs[i], path)
    requires CheckParams(cfg.programs[i].rule)
    ensures CanResolve(d, cfg.programs[i].progId, path, stamp, wid)
       <==> VotesLeft(d.state.store[i].votes, cfg.programs[i].rule.threshold, cfg.programs[i].rule.members,
            Label(Some(path), "resolve"))
  {
    var start := Reached(cfg, events);
    FoundById(d.programs, d.state.store, i);
    ProgramResolvesIff(d, i, path, stamp, wid);
  }

  /**
   A dispute can be answered, by any statement to any program, exactly when one of the
   programs that may resolve on the path still can: an endorsement with votes left on it, or
   a claim that has a pre-image and a member.
   */
  lemma {:induction false} DisputeAnswerableIff(
    cfg: MachineConfig, events: seq<Event>, d: MachineData, path: string, stamp: int, wid: string)
    requires IsRun(cfg, events, d) && DistinctIds(cfg.programs) && AwaitsResolve(d, path, stamp)
    requires forall p | p in cfg.programs :: CheckParams(p.rule)
    ensures (exists w: WitnessData | IsResolve(w, path, stamp, wid) :: EvalWitness(d, [w]).data.output == Some(path))
       <==> SomeWilling(d, path)
  {
    var start := Reached(cfg, events);
    if w: WitnessData :| IsResolve(w, path, stamp, wid) && EvalWitness(d, [w]).data.output == Some(path) {
      ResolverIsWilling(cfg, start, d, w, path);
    }
    if i: nat :| i < |d.programs| == |d.state.store| && WillingAt(d, i, path) {
      FoundById(d.programs, d.state.store, i);
      ProgramResolvesIff(d, i, path, stamp, wid);
      var w: WitnessData :| IsResolve(w, path, stamp, wid) && w.progId == d.programs[i].progId
          && EvalWitness(d, [w]).data.output == Some(path);
    }
  }

  predicate WillingAt(d: MachineData, i: nat, path: string)
    requires i < |d.programs| == |d.state.store|
  {
    MayResolve(d.programs[i], path) && Willing(d.programs[i].rule, d.state.store[i].votes, Label(Some(path), "resolve"))
  }

  /** A program that may resolve on the path and still can. */
  ghost predicate SomeWilling(d: MachineData, path: string) {
    exists i: nat :: i < |d.programs| == |d.state.store| && WillingAt(d, i, path)
  }

  lemma ResolverIsWilling(cfg: MachineConfig, start: seq<PathEntry>, d: MachineData, w: WitnessData, path: string)
    requires Inv(cfg, start, d) && DistinctIds(cfg.programs) && AwaitsResolve(d, path, w.stamp)
    requires forall p | p in cfg.programs :: CheckParams(p.rule)
    requires w.action == "resolve" && w.path == Some(path) && EvalWitness(d, [w]).data.output == Some(path)
    ensures SomeWilling(d, path)
  {
    match FindProgram(d.programs, w.progId) {
      case None => NotLoaded(d, w);
      case Some(i) =>
        FoundById(d.programs, d.state.store, i);
        OnlyWilling(d, i, w, path);
        assert WillingAt(d, i, path);
    }
  }

  /* ---- Admitted statements ---- */

  /** The members and the other parameter, among which a signer is looked for. */
  predicate IsParam(rule: Method, pub: string) {
    match rule
    case Claim(Sha256(_), members) => pub in members
    case Claim(NotAHash(literal), members) => pub == literal || pub in members
    case Endorse(_, members) => pub in members
    case NoMethod(_) => false
  }

  /** verify_witness_data, with the statement's own hash and signatures taken as checked. */
  predicate VerifyWitness(d: MachineData, w: WitnessData) {
    match FindProgram(d.programs, w.progId)
    case None => false
    case Some(i) =>
      var program := d.programs[i];
      && Regex(w.action, program.actions)
      && d.activeAt <= w.stamp && d.commitAt <= w.stamp < d.expiresAt
      && d.output.None?
      && (w.path.Some? ==>
            program.paths.Some? && Regex(w.path.value, program.paths.value) && w.path.value in d.pathnames)
      && (forall s | s in w.sigs :: IsParam(program.rule, PubOf(s)))
  }

  /**
   With checked parameters and members of 64 digits, a statement is verified exactly when its
   program exists and grants the action, on a known path that it grants if it names one, the
   machine is unsettled, the stamp lies between the last commit and the expiration, and every
   proof begins with a member's key.
   */
  lemma {:induction false} VerifyWitnessIff(d: MachineData, w: WitnessData, i: nat)
    requires FindProgram(d.programs, w.progId) == Some(i) && CheckParams(d.programs[i].rule)
    ensures var program := d.programs[i];
            VerifyWitness(d, w) <==>
              && d.output.None?
              && d.activeAt <= w.stamp && d.commitAt <= w.stamp < d.expiresAt
              && Regex(w.action, program.actions)
              && (w.path.Some? ==>
                    && w.path.value in d.pathnames
                    && program.paths.Some? && Regex(w.path.value, program.paths.value))
              && forall s | s in w.sigs :: exists m | m in Members(program.rule) :: m <= s
  {
    var rule := d.programs[i].rule;
    forall s
      ensures IsParam(rule, PubOf(s)) <==> exists m | m in Members(rule) :: m <= s
    {
      if m :| m in Members(rule) && m <= s {
        KeyBegins(s, m);
      }
      KeyBegins(s, PubOf(s));
    }
  }

  /** What the verification leaves open: the action is one the machine knows, with a path where it needs one. */
  predicate WellFormed(w: WitnessData) {
    && w.action in VALID_ACTIONS
    && (w.path.Some? <==> IsPathAction(w.action))
    && w.path != Some("null")
  }

  /** A statement whose program can be loaded and whose path exists, whatever else happens to the machine. */
  ghost predicate Admitted(cfg: MachineConfig, w: WitnessData) {
    && WellFormed(w)
    && (w.path.Some? ==> w.path.value in cfg.pathnames)
    && match FindProgram(cfg.programs, w.progId)
       case None => false
       case Some(i) => CheckAccess(cfg.programs[i], w).Done?
  }

  lemma VerifiedIsAdmitted(cfg: MachineConfig, d: MachineData, w: WitnessData)
    requires Shape(cfg, d) && VerifyWitness(d, w) && WellFormed(w)
    requires forall p | p in cfg.programs :: CheckParams(p.rule)
    ensures Admitted(cfg, w)
  {}

  lemma AdmittedUpdates(cfg: MachineConfig, d: MachineData, w: WitnessData, origin: Origin)
    requires Admitted(cfg, w) && PathNames(d.state.paths) == cfg.pathnames
    ensures !Update(d, WitnessInput(w), origin).outcome.Throw?
  {
    PathActionsListed(w.action);
    if w.path.Some? {
      NamesFound(d.state.paths, w.path.value);
    }
  }

  /** Storing votes and committing on them keeps what statements are loaded from. */
  lemma UpdateStocked(cfg: MachineConfig, voted: MachineData, w: WitnessData, origin: Origin)
    requires Stocked(cfg, voted) && PathNames(voted.state.paths) == cfg.pathnames && Admitted(cfg, w)
    ensures var next := Update(voted, WitnessInput(w), origin);
            !next.outcome.Throw? && Stocked(cfg, next.data) && PathNames(next.data.state.paths) == cfg.pathnames
  {
    AdmittedUpdates(cfg, voted, w, origin);
    UpdateCommits(voted, WitnessInput(w), origin);
  }

  lemma RunProgramTotal(cfg: MachineConfig, d: MachineData, w: WitnessData)
    requires Stocked(cfg, d) && PathNames(d.state.paths) == cfg.pathnames && Admitted(cfg, w)
    ensures var next := RunProgram(d, w);
            !next.outcome.Throw? && Stocked(cfg, next.data) && PathNames(next.data.state.paths) == cfg.pathnames
  {
    var i := FindProgram(cfg.programs, w.progId).value;
    FindStoreUnique(d.state.store, w.progId, i);
    assert VotesOk(d.state.store[i].votes, Members(d.programs[i].rule));
    ExecMethodKeeps(d.programs[i].rule, d.state.store[i].votes, w);
    var voted := WithVotes(d, i, ExecMethod(d.programs[i].rule, d.state.store[i].votes, w).votes);
    var origin := ByProgram(d.programs[i], w,
        Voters(d.programs[i].rule, ExecMethod(d.programs[i].rule, d.state.store[i].votes, w).votes, w));
    UpdateStocked(cfg, voted, w, origin);
  }

  lemma {:induction false} EvalStackTotal(cfg: MachineConfig, d: MachineData, stack: seq<WitnessData>)
    requires Stocked(cfg, d) && PathNames(d.state.paths) == cfg.pathnames
    requires forall w | w in stack :: Admitted(cfg, w)
    ensures !EvalStack(d, stack).outcome.Throw?
    decreases |stack|
  {
    if stack != [] {
      RunTasksCommits(d, GetTasks(d, stack[0].stamp));
      var timed := RunSchedule(d, stack[0].stamp);
      RunProgramTotal(cfg, timed, stack[0]);
      EvalStackTotal(cfg, RunProgram(timed, stack[0]).data, stack[1..]);
    }
  }

  /**
   Statements that were verified against a reachable machine are evaluated without a throw, one
   by one or as a batch.
   */
  lemma {:induction false} StatementsAreTotal(
    cfg: MachineConfig, events: seq<Event>, d: MachineData, ws: seq<WitnessData>)
    requires IsRun(cfg, events, d) && forall p | p in cfg.programs :: CheckParams(p.rule)
    requires forall w | w in ws :: VerifyWitness(d, w) && WellFormed(w)
    ensures EvalWitness(d, ws).outcome.Done?
  {
    var start := Reached(cfg, events);
    forall w | w in GetStatements(ws)
      ensures Admitted(cfg, w)
    {
      assert w in multiset(ws);
      VerifiedIsAdmitted(cfg, d, w);
    }
    EvalStackTotal(cfg, d.(error := None), GetStatements(ws));
  }
}
