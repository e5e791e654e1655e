/**
 What the two methods make of a statement, case by case, and which proofs they accept.
 */
module Methods {
  import opened Wrappers
  import opened Text
  import opened Machine
  import opened Frames
  import opened Votes
  import opened Invariants
  import opened Statements
  import Safety

  /* ---- Claims ---- */

  /** The four ways a claim is refused, in order, and the one in which it is accepted; its store is never changed. */
  lemma ClaimExactly(lock: HashLock, members: seq<string>, votes: seq<Vote>, w: WitnessData)
    requires forall m | m in members :: |m| == 64
    ensures var exec := ExecMethod(Claim(lock, members), votes, w);
            && exec.votes == votes
            && (exec.accepted <==> Safety.Opens(lock, members, w))
            && (exec.outcome.Done? <==> exec.accepted)
            && (|w.args| == 0 || !IsHash(w.args[0]) ==> exec.outcome == VMError(InvalidPreimage))
            && (|w.args| > 0 && IsHash(w.args[0]) && Sha256(w.args[0]) != lock
               ==> exec.outcome == VMError(DigestMismatch))
            && (|w.args| > 0 && IsHash(w.args[0]) && Sha256(w.args[0]) == lock ==>
                  && (|w.sigs| == 0 || !IsHex(w.sigs[0]) ==> exec.outcome == VMError(InvalidProof))
                  && (|w.sigs| > 0 && IsHex(w.sigs[0]) && (forall m | m in members :: !(m <= w.sigs[0])) ==>
                        exec.outcome == VMError(NotAMember)))
  {
    if |w.sigs| > 0 {
      forall m | m in members
        ensures PubOf(w.sigs[0]) == m <==> m <= w.sigs[0]
      {
        KeyBegins(w.sigs[0], m);
      }
    }
  }

  /** A statement that opens the lock of the claim program it is loaded for is committed as any update would be. */
  lemma ClaimRuns(d: MachineData, i: nat, w: WitnessData)
    requires LoadsAt(d, i, w) && d.programs[i].rule.Claim? && forall m | m in d.programs[i].rule.members :: |m| == 64
    ensures var rule := d.programs[i].rule;
            if Safety.Opens(rule.lock, rule.members, w)
            then RunProgram(d, w) == Update(d, WitnessInput(w), ByProgram(d.programs[i], w, []))
            else RunProgram(d, w).outcome.VMError? && RunProgram(d, w).data == d
  {
    var rule := d.programs[i].rule;
    ClaimExactly(rule.lock, rule.members, d.state.store[i].votes, w);
    assert LoadProgram(d.programs, d.state.store, w) == Success(Loaded(i, i));
    assert WithVotes(d, i, d.state.store[i].votes) == d;
  }

  /* ---- Endorsements ---- */

  function Keys(sigs: seq<string>): (keys: seq<string>)
    ensures |keys| == |sigs|
    ensures forall i | 0 <= i < |sigs| :: keys[i] == PubOf(sigs[i])
  {
    if sigs == [] then [] else [PubOf(sigs[0])] + Keys(sigs[1..])
  }

  /** New votes of members, one each, that leave the threshold unmet. */
  ghost predicate Heard(keys: seq<string>, recorded: seq<string>, threshold: JsNumber, members: seq<string>) {
    && Distinct(keys) && (forall k | k in keys :: k in members && k !in recorded)
    && (keys != [] ==> !Reaches(|recorded| + |keys|, threshold))
  }

  /** Proofs that only add votes leave the rest of the statement to be read with those votes recorded. */
  lemma {:induction false} VotesHeard(
    votes: seq<Vote>, tag: string, sigs: seq<string>, threshold: JsNumber, members: seq<string>,
      n: nat) returns (next: seq<Vote>)
    requires VotesOk(votes, members) && n <= |sigs|
    requires Heard(Keys(sigs[..n]), Recorded(votes, tag), threshold, members)
    ensures ExecEndorse(votes, tag, sigs, threshold, members) == ExecEndorse(next, tag, sigs[n..], threshold, members)
    ensures VotesOk(next, members) && Recorded(next, tag) == Recorded(votes, tag) + Keys(sigs[..n])
    ensures forall other | other != tag :: Recorded(next, other) == Recorded(votes, other)
    decreases n
  {
    if n == 0 {
      next := votes;
      assert sigs[0..] == sigs;
    } else {
      var key, rest, recorded := PubOf(sigs[0]), Keys(sigs[1..][..n - 1]), Recorded(votes, tag);
      KeysHead(sigs, n);
      HeardRest(key, rest, recorded, threshold, members);
      var one := OneHeard(votes, tag, sigs, threshold, members);
      next := VotesHeard(one, tag, sigs[1..], threshold, members, n - 1);
      assert sigs[1..][n - 1..] == sigs[n..];
      Associative(recorded, [key], rest);
    }
  }

  lemma KeysHead(sigs: seq<string>, n: nat)
    requires 0 < n <= |sigs|
    ensures Keys(sigs[..n]) == [PubOf(sigs[0])] + Keys(sigs[1..][..n - 1])
  {
    assert sigs[..n][0] == sigs[0] && sigs[..n][1..] == sigs[1..][..n - 1];
  }

  /** One proof that only adds a vote. */
  lemma OneHeard(votes: seq<Vote>, tag: string, sigs: seq<string>, threshold: JsNumber, members: seq<string>)
    returns (one: seq<Vote>)
    requires VotesOk(votes, members) && sigs != []
    requires PubOf(sigs[0]) in members && PubOf(sigs[0]) !in Recorded(votes, tag)
    requires !Reaches(|Recorded(votes, tag)| + 1, threshold)
    ensures ExecEndorse(votes, tag, sigs, threshold, members) == ExecEndorse(one, tag, sigs[1..], threshold, members)
    ensures VotesOk(one, members) && Recorded(one, tag) == Recorded(votes, tag) + [PubOf(sigs[0])]
    ensures forall other | other != tag :: Recorded(one, other) == Recorded(votes, other)
  {
    one := WithVote(votes, tag, PubOf(sigs[0])).value;
    WithVoteKeeps(votes, tag, PubOf(sigs[0]), members, one);
  }

  lemma HeardRest(key: string, rest: seq<string>, recorded: seq<string>, threshold: JsNumber, members: seq<string>)
    requires Heard([key] + rest, recorded, threshold, members)
    ensures key in members && key !in recorded && !Reaches(|recorded| + 1, threshold)
    ensures Heard(rest, recorded + [key], threshold, members)
  {
    var keys := [key] + rest;
    assert keys[0] in keys && keys[1..] == rest && forall k | k in rest :: k in keys;
  }

  /**
   What the proofs still to be read make of an endorsement whose label has the votes `before`:
   with no more proofs it ends unaccepted, at a stranger's or a repeated vote it is refused, and
   at the vote that meets the threshold it is accepted and reads no further.
   */
  ghost predicate Stops(
    exec: Execution, tag: string, before: seq<string>, sigs: seq<string>, threshold: JsNumber, members: seq<string>)
  {
    if sigs == [] then
      exec.outcome.Done? && !exec.accepted && Recorded(exec.votes, tag) == before
    else
      var key := PubOf(sigs[0]);
      if key !in members then
        exec.outcome == VMError(NotAMember) && !exec.accepted && Recorded(exec.votes, tag) == before
      else if key in before then
        exec.outcome == VMError(RecordExists(tag, key)) && !exec.accepted && Recorded(exec.votes, tag) == before
      else
        Reaches(|before| + 1, threshold) ==>
          exec.outcome.Done? && exec.accepted && Recorded(exec.votes, tag) == before + [key]
  }

  /**
   An endorsement is read proof by proof: after `n` proofs that only added votes, the next one
   decides. The votes read so far are recorded in every case, in order, and no other label is
   touched.
   */
  lemma EndorseExactly(
    votes: seq<Vote>, tag: string, sigs: seq<string>, threshold: JsNumber, members: seq<string>, n: nat)
    requires VotesOk(votes, members) && n <= |sigs|
    requires Heard(Keys(sigs[..n]), Recorded(votes, tag), threshold, members)
    ensures var exec := ExecEndorse(votes, tag, sigs, threshold, members);
            && Stops(exec, tag, Recorded(votes, tag) + Keys(sigs[..n]), sigs[n..], threshold, members)
            && (forall other | other != tag :: Recorded(exec.votes, other) == Recorded(votes, other))
  {
    var next := VotesHeard(votes, tag, sigs, threshold, members, n);
    EndorseNext(next, tag, sigs[n..], threshold, members);
  }

  /** What the next proof, if there is one, decides. */
  lemma EndorseNext(votes: seq<Vote>, tag: string, sigs: seq<string>, threshold: JsNumber, members: seq<string>)
    requires VotesOk(votes, members)
    ensures var exec := ExecEndorse(votes, tag, sigs, threshold, members);
            && Stops(exec, tag, Recorded(votes, tag), sigs, threshold, members)
            && (forall other | other != tag :: Recorded(exec.votes, other) == Recorded(votes, other))
  {
    ExecEndorseGrows(votes, tag, sigs, threshold, members);
    if sigs != [] {
      var key := PubOf(sigs[0]);
      if key in members && key !in Recorded(votes, tag) {
        WithVoteKeeps(votes, tag, key, members, WithVote(votes, tag, key).value);
      }
    }
  }

  /** A proof that does more than add a vote, or the end of the proofs. */
  ghost predicate Decides(
    sigs: seq<string>, n: nat, recorded: seq<string>, threshold: JsNumber, members: seq<string>)
    requires n <= |sigs|
  {
    n == |sigs| ||
    var key, before := PubOf(sigs[n]), recorded + Keys(sigs[..n]);
    key !in members || key in before || Reaches(|before| + 1, threshold)
  }

  /** Every statement comes to one of those cases. */
  lemma {:induction false} EndorseStops(
    recorded: seq<string>, sigs: seq<string>, threshold: JsNumber, members: seq<string>, m: nat)
    returns (n: nat)
    requires m <= |sigs| && Heard(Keys(sigs[..m]), recorded, threshold, members)
    ensures m <= n <= |sigs| && Heard(Keys(sigs[..n]), recorded, threshold, members)
    ensures Decides(sigs, n, recorded, threshold, members)
    decreases |sigs| - m
  {
    n := m;
    if !Decides(sigs, m, recorded, threshold, members) {
      OneMoreHeard(recorded, sigs, threshold, members, m);
      n := EndorseStops(recorded, sigs, threshold, members, m + 1);
    }
  }

  lemma OneMoreHeard(recorded: seq<string>, sigs: seq<string>, threshold: JsNumber, members: seq<string>, m: nat)
    requires m <= |sigs| && Heard(Keys(sigs[..m]), recorded, threshold, members)
    requires !Decides(sigs, m, recorded, threshold, members)
    ensures m < |sigs| && Heard(Keys(sigs[..m + 1]), recorded, threshold, members)
  {
    KeysAppend(sigs, m);
    HeardMore(Keys(sigs[..m]), PubOf(sigs[m]), recorded, threshold, members);
  }

  lemma KeysAppend(sigs: seq<string>, m: nat)
    requires m < |sigs|
    ensures Keys(sigs[..m + 1]) == Keys(sigs[..m]) + [PubOf(sigs[m])]
  {
  }

  lemma HeardMore(keys: seq<string>, key: string, recorded: seq<string>, threshold: JsNumber, members: seq<string>)
    requires Heard(keys, recorded, threshold, members)
    requires key in members && key !in recorded + keys && !Reaches(|recorded + keys| + 1, threshold)
    ensures Heard(keys + [key], recorded, threshold, members)
  {
    assert |recorded + keys| + 1 == |recorded| + |keys + [key]|;
  }

  /**
   Whatever comes of a loaded statement, the votes it added are in its program's store, and no
   other store is changed.
   */
  lemma VotesStored(d: MachineData, i: nat, w: WitnessData)
    requires LoadsAt(d, i, w) && d.programs[i].rule.Endorse?
    ensures var rule := d.programs[i].rule;
            var exec := ExecEndorse(d.state.store[i].votes, Label(w.path, w.action), w.sigs, rule.threshold,
                rule.members);
            var store := RunProgram(d, w).data.state.store;
            && |store| == |d.state.store| && store[i].progId == d.state.store[i].progId && store[i].votes == exec.votes
            && (forall j | 0 <= j < |store| && j != i :: store[j] == d.state.store[j])
            && (!exec.accepted ==> RunProgram(d, w).data.log == d.log)
  {
    assert LoadProgram(d.programs, d.state.store, w) == Success(Loaded(i, i));
    AcceptedIsDone(d.programs[i].rule, d.state.store[i].votes, w);
    var exec := ExecMethod(d.programs[i].rule, d.state.store[i].votes, w);
    var origin := ByProgram(d.programs[i], w, Voters(d.programs[i].rule, exec.votes, w));
    UpdateCommits(WithVotes(d, i, exec.votes), WitnessInput(w), origin);
  }

  /* ---- Real proofs ---- */

  /** Each key with a signature after it. */
  function Proofs(keys: seq<string>, sign: string -> string): (sigs: seq<string>)
    ensures |sigs| == |keys|
    ensures forall i | 0 <= i < |keys| :: sigs[i] == keys[i] + sign(keys[i])
  {
    if keys == [] then [] else [keys[0] + sign(keys[0])] + Proofs(keys[1..], sign)
  }

  /** Distinct keys of members, none of them recorded. */
  ghost predicate NewMembers(keys: seq<string>, recorded: seq<string>, members: seq<string>) {
    Distinct(keys) && forall k | k in keys :: k in members && |k| == 64 && k !in recorded
  }

  lemma NewMembersRest(keys: seq<string>, recorded: seq<string>, members: seq<string>)
    requires keys != [] && NewMembers(keys, recorded, members)
    ensures keys[0] in members && |keys[0]| == 64 && keys[0] !in recorded
    ensures NewMembers(keys[1..], recorded + [keys[0]], members)
  {
    assert keys[0] in keys && forall k | k in keys[1..] :: k in keys;
  }

  /** New members enough to meet the threshold, each with a proof of any signature after the key, are accepted. */
  lemma {:induction false} ProofsReach(
    votes: seq<Vote>, tag: string, keys: seq<string>, sign: string -> string, threshold: real, members: seq<string>)
    requires keys != [] && NewMembers(keys, Recorded(votes, tag), members)
    requires VotesOk(votes, members) && threshold <= (|Recorded(votes, tag)| + |keys|) as real
    ensures ExecEndorse(votes, tag, Proofs(keys, sign), Num(threshold), members).accepted
    decreases |keys|
  {
    var key, sigs := keys[0], Proofs(keys, sign);
    NewMembersRest(keys, Recorded(votes, tag), members);
    KeyInFront(key, sign(key));
    if Reaches(|Recorded(votes, tag)| + 1, Num(threshold)) {
      EndorseNext(votes, tag, sigs, Num(threshold), members);
    } else {
      var one := OneHeard(votes, tag, sigs, Num(threshold), members);
      assert sigs[1..] == Proofs(keys[1..], sign);
      ProofsReach(one, tag, keys[1..], sign, threshold, members);
    }
  }

  /** Whenever an endorsement can be accepted at all, it is with proofs of its members that carry any signatures. */
  lemma RealProofsAccepted(
    votes: seq<Vote>, threshold: JsNumber, members: seq<string>, tag: string, sign: string -> string)
    returns (keys: seq<string>)
    requires (forall m | m in members :: |m| == 64) && VotesOk(votes, members)
    requires VotesLeft(votes, threshold, members, tag)
    ensures Distinct(keys) && (forall k | k in keys :: k in members && k !in Recorded(votes, tag))
    ensures ExecEndorse(votes, tag, Proofs(keys, sign), threshold, members).accepted
  {
    var u, pubs := Unique(members), Recorded(votes, tag);
    keys := Filter(u, NotIn(pubs));
    FilterDistinct(u, NotIn(pubs));
    var m :| m in members && m !in pubs;
    assert m in keys;
    DistinctWithin(u, pubs + keys);
    ProofsReach(votes, tag, keys, sign, threshold.value, members);
  }

  /** Whenever a dispute can be answered, it is by a statement whose proofs are a member's key and any signature. */
  lemma {:induction false} RealProofsAnswer(
    d: MachineData, i: nat, path: string, stamp: int, wid: string, sign: string -> string) returns (w: WitnessData)
    requires AwaitsResolve(d, path, stamp) && d.pathnames == PathNames(d.state.paths)
    requires i < |d.programs| == |d.state.store| && WillingAt(d, i, path)
    requires FindProgram(d.programs, d.programs[i].progId) == FindStore(d.state.store, d.programs[i].progId) == Some(i)
    requires CheckParams(d.programs[i].rule) && VotesOk(d.state.store[i].votes, Members(d.programs[i].rule))
    requires forall m | m in Members(d.programs[i].rule) :: IsHex(sign(m))
    ensures IsResolve(w, path, stamp, wid) && w.progId == d.programs[i].progId
    ensures forall proof | proof in w.sigs :: exists m | m in Members(d.programs[i].rule) :: proof == m + sign(m)
    ensures EvalWitness(d, [w]).data.output == Some(path)
  {
    var program, votes, tag := d.programs[i], d.state.store[i].votes, Label(Some(path), "resolve");
    match program.rule {
      case Endorse(threshold, members) =>
        var keys := RealProofsAccepted(votes, threshold, members, tag, sign);
        w := WitnessData(wid, program.progId, "resolve", Some(path), [], Proofs(keys, sign), stamp);
      case Claim(lock, members) =>
        var m := members[0];
        assert m in members;
        KeyInFront(m, sign(m));
        w := WitnessData(wid, program.progId, "resolve", Some(path), [lock.preimage], [m + sign(m)], stamp);
    }
    MayResolveIff(program, w, path);
    ResolveEvaluated(d, i, w, path);
  }
}
