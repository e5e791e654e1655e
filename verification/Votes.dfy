/**
 The vote stores behind the endorse method: labels name exactly one path and action, votes
 are distinct members, and no later statement removes one.
 */
module Votes {
  import opened Wrappers
  import opened Machine

  lemma {:induction false} OneSlash(p: string, a: string, q: string, b: string)
    requires '/' !in p && '/' !in a
    requires p + "/" + a == q + "/" + b
    ensures p == q && a == b
  {
    var s := p + "/" + a;
    assert s == q + "/" + b && s[|q|] == '/';
    assert forall i | 0 <= i < |s| && i != |p| :: s[i] == if i < |p| then p[i] else a[i - |p| - 1];
    assert |p| == |q|;
    assert p == s[..|p|] && q == s[..|q|];
    assert a == s[|p| + 1..] && b == s[|q| + 1..];
  }

  /**
   What the guards of load_program leave of a path and an action: no path named `null`, and a
   path exactly for path actions.
   */
  predicate Guarded(path: Option<string>, action: string) {
    path != Some("null") && (path.Some? <==> IsPathAction(action))
  }

  /**
   What a commit adds to that: no other action than a close comes without a path, and the path
   is one of the machine's.
   */
  predicate Committable(path: Option<string>, action: string) {
    && Guarded(path, action)
    && (path.None? ==> action == "close")
    && (path.Some? ==> '/' !in path.value)
  }

  /**
   The label of a commit is the label of no other guarded statement, whatever path and
   action that statement names.
   */
  lemma {:induction false} LabelInjective(path: Option<string>, action: string, path': Option<string>, action': string)
    requires Guarded(path, action) && Committable(path', action')
    ensures Label(path, action) == Label(path', action') <==> path == path' && action == action'
  {
    assert VerbOf(action') != Unknown ==> '/' !in action';
    if Label(path, action) == Label(path', action') {
      OneSlash(path'.GetOr("null"), action', path.GetOr("null"), action);
    }
  }

  /** Without the refusal of a path named `null`, its votes would count for no path at all. */
  lemma {:induction false} NullPathCollides(action: string)
    ensures Label(Some("null"), action) == Label(None, action)
  {}

  /** And a path with a `/` in its name, which the schemas refuse, could share a label with an action that has one. */
  lemma SlashCollides()
    ensures Guarded(None, "x/lock") && Guarded(Some("null/x"), "lock")
    ensures Label(None, "x/lock") == Label(Some("null/x"), "lock")
  {
    assert Label(None, "x/lock") == "null/x/lock";
  }

  ghost predicate VotesOk(votes: seq<Vote>, members: seq<string>) {
    forall i | 0 <= i < |votes| ::
      Distinct(votes[i].pubkeys) && forall pub | pub in votes[i].pubkeys :: pub in members
  }

  ghost predicate IsFirst(votes: seq<Vote>, tag: string, idx: Option<nat>) {
    match idx
    case None => forall i | 0 <= i < |votes| :: votes[i].tag != tag
    case Some(k) => k < |votes| && votes[k].tag == tag && forall i | 0 <= i < k :: votes[i].tag != tag
  }

  lemma FindVoteUnique(votes: seq<Vote>, tag: string, idx: Option<nat>)
    requires IsFirst(votes, tag, idx)
    ensures FindVote(votes, tag) == idx
  {}

  lemma RecordedAfterAppend(votes: seq<Vote>, tag: string, pub: string, other: string)
    requires FindVote(votes, tag).None?
    ensures Recorded(votes + [Vote(tag, [pub])], other)
         == if other == tag then Recorded(votes, tag) + [pub] else Recorded(votes, other)
  {
    var next := votes + [Vote(tag, [pub])];
    assert next[|votes|] == Vote(tag, [pub]);
    FindVoteUnique(next, other, if other == tag then Some(|votes|) else FindVote(votes, other));
  }

  lemma RecordedAfterReplace(votes: seq<Vote>, tag: string, pubs: seq<string>, other: string)
    requires FindVote(votes, tag).Some?
    ensures Recorded(votes[FindVote(votes, tag).value := Vote(tag, pubs)], other)
         == if other == tag then pubs else Recorded(votes, other)
  {
    var next := votes[FindVote(votes, tag).value := Vote(tag, pubs)];
    FindVoteUnique(next, other, FindVote(votes, other));
  }

  lemma WithVoteKeeps(votes: seq<Vote>, tag: string, pub: string, members: seq<string>, next: seq<Vote>)
    requires VotesOk(votes, members) && pub in members
    requires WithVote(votes, tag, pub) == Some(next)
    ensures VotesOk(next, members)
    ensures Recorded(next, tag) == Recorded(votes, tag) + [pub]
    ensures forall other | other != tag :: Recorded(next, other) == Recorded(votes, other)
  {
    match FindVote(votes, tag) {
      case None =>
        forall other {
          RecordedAfterAppend(votes, tag, pub, other);
        }
      case Some(i) =>
        var pubs := votes[i].pubkeys + [pub];
        assert forall p | p in pubs :: p in members;
        forall other {
          RecordedAfterReplace(votes, tag, pubs, other);
        }
    }
  }

  /** Votes under every label are only ever appended to. */
  ghost predicate Grows(votes: seq<Vote>, next: seq<Vote>) {
    forall tag :: Recorded(votes, tag) <= Recorded(next, tag)
  }

  lemma {:induction false} ExecEndorseGrows(
    votes: seq<Vote>, tag: string, sigs: seq<string>, threshold: JsNumber, members: seq<string>)
    requires VotesOk(votes, members)
    ensures var exec := ExecEndorse(votes, tag, sigs, threshold, members);
            && VotesOk(exec.votes, members)
            && Recorded(votes, tag) <= Recorded(exec.votes, tag)
            && (forall other | other != tag :: Recorded(exec.votes, other) == Recorded(votes, other))
            && (exec.accepted ==> exec.outcome.Done? && Reaches(|Recorded(exec.votes, tag)|, threshold))
            && !exec.outcome.Throw?
    decreases |sigs|
  {
    if sigs != [] && PubOf(sigs[0]) in members && WithVote(votes, tag, PubOf(sigs[0])).Some? {
      var next := WithVote(votes, tag, PubOf(sigs[0])).value;
      WithVoteKeeps(votes, tag, PubOf(sigs[0]), members, next);
      if !Reaches(|Recorded(next, tag)|, threshold) {
        ExecEndorseGrows(next, tag, sigs[1..], threshold, members);
      }
    }
  }

  predicate SomeSigned(sigs: seq<string>, pub: string) {
    exists i | 0 <= i < |sigs| :: PubOf(sigs[i]) == pub
  }

  lemma {:induction false} ExecEndorseSigned(
    votes: seq<Vote>, tag: string, sigs: seq<string>, threshold: JsNumber, members: seq<string>, pub: string)
    requires VotesOk(votes, members) && pub !in Recorded(votes, tag)
    requires pub in Recorded(ExecEndorse(votes, tag, sigs, threshold, members).votes, tag)
    ensures SomeSigned(sigs, pub)
    decreases |sigs|
  {
    if PubOf(sigs[0]) != pub {
      var next := WithVote(votes, tag, PubOf(sigs[0])).value;
      WithVoteKeeps(votes, tag, PubOf(sigs[0]), members, next);
      ExecEndorseSigned(next, tag, sigs[1..], threshold, members, pub);
      var i :| 0 <= i < |sigs[1..]| && PubOf(sigs[1..][i]) == pub;
      assert PubOf(sigs[i + 1]) == pub;
    }
  }

  /**
   Whatever the outcome, an execution keeps the votes of distinct members and appends to
   them; it accepts only when the threshold is then met under that label, and each vote it
   adds to the label was carried by a signature of the statement.
   */
  lemma {:induction false} ExecEndorseKeeps(
    votes: seq<Vote>, tag: string, sigs: seq<string>, threshold: JsNumber, members: seq<string>)
    requires VotesOk(votes, members)
    ensures var exec := ExecEndorse(votes, tag, sigs, threshold, members);
            && VotesOk(exec.votes, members)
            && Grows(votes, exec.votes)
            && (forall other | other != tag :: Recorded(exec.votes, other) == Recorded(votes, other))
            && (exec.accepted ==> exec.outcome.Done? && Reaches(|Recorded(exec.votes, tag)|, threshold))
            && (forall pub | pub in Recorded(exec.votes, tag) && pub !in Recorded(votes, tag) :: SomeSigned(sigs, pub))
            && !exec.outcome.Throw?
  {
    ExecEndorseGrows(votes, tag, sigs, threshold, members);
    var exec := ExecEndorse(votes, tag, sigs, threshold, members);
    forall other
      ensures Recorded(votes, other) <= Recorded(exec.votes, other)
    {
      assert other == tag || Recorded(exec.votes, other) == Recorded(votes, other);
    }
    forall pub | pub in Recorded(exec.votes, tag) && pub !in Recorded(votes, tag)
      ensures SomeSigned(sigs, pub)
    {
      ExecEndorseSigned(votes, tag, sigs, threshold, members, pub);
    }
  }
}
