/**
 Drafts: joining adds a member's paths, payment and program entries to a proposal in place,
 and leaving takes them out again.
 */
module Enrollment {
  import opened Wrappers
  import opened Text

  /** An address is known by the wallet it was derived from, and a wallet by its member's key. */
  datatype Address = OfWallet(pub: string, index: nat) | Foreign(text: string)

  datatype DraftPath = DraftPath(path: string, value: real, addr: Address)
  datatype DraftPayment = DraftPayment(value: real, addr: Address)
  datatype PathTemplate = PathTemplate(path: string, value: real)

  /** Method, actions, paths, then parameters: for an endorsement, the threshold and the members. */
  type ProgramEntry = seq<string>

  datatype RolePolicy = RolePolicy(
    id: string, paths: seq<PathTemplate>, payment: Option<real>, programs: seq<ProgramEntry>, seats: int)

  datatype MemberData = MemberData(pub: string, pid: string)
  datatype DraftProposal = DraftProposal(
    paths: seq<DraftPath>, payments: seq<DraftPayment>, programs: seq<ProgramEntry>)
  datatype DraftSession = DraftSession(members: seq<MemberData>, proposal: DraftProposal, roles: seq<RolePolicy>)

  /* ---- Adding a member ---- */

  /** One new address of the member's wallet for each path. */
  function NewPaths(terms: seq<PathTemplate>, pub: string, next: nat): seq<DraftPath>
    decreases |terms|
  {
    if terms == [] then []
    else [DraftPath(terms[0].path, terms[0].value, OfWallet(pub, next))] + NewPaths(terms[1..], pub, next + 1)
  }

  function NewPayments(policy: RolePolicy, pub: string): seq<DraftPayment> {
    if policy.payment.Some? && policy.payment.value > 0.0
    then [DraftPayment(policy.payment.value, OfWallet(pub, |policy.paths|))]
    else []
  }

  /** Indexing that yields undefined past the end. */
  function At(e: ProgramEntry, i: nat): Option<string> {
    if i < |e| then Some(e[i]) else None
  }

  predicate SameTerms(a: ProgramEntry, b: ProgramEntry) {
    At(a, 0) == At(b, 0) && At(a, 1) == At(b, 1) && At(a, 2) == At(b, 2) && At(a, 3) == At(b, 3)
  }

  function GetProgramIdx(entries: seq<ProgramEntry>, terms: ProgramEntry): (idx: Option<nat>)
    ensures idx.Some? ==> idx.value < |entries| && SameTerms(entries[idx.value], terms)
    ensures idx.None? ==> forall i | 0 <= i < |entries| :: !SameTerms(entries[i], terms)
  {
    FindIndex(entries, (e: ProgramEntry) => SameTerms(e, terms))
  }

  function AddProgram(programs: seq<ProgramEntry>, terms: ProgramEntry, pub: string): seq<ProgramEntry> {
    match GetProgramIdx(programs, terms)
    case None => programs + [terms + [pub]]
    case Some(i) => programs[i := programs[i] + [pub]]
  }

  function AddPrograms(programs: seq<ProgramEntry>, list: seq<ProgramEntry>, pub: string): seq<ProgramEntry>
    decreases |list|
  {
    if list == [] then programs else AddPrograms(AddProgram(programs, list[0], pub), list[1..], pub)
  }

  function AddMember(pub: string, policy: RolePolicy, p: DraftProposal): DraftProposal {
    DraftProposal(
      p.paths + NewPaths(policy.paths, pub, 0),
      p.payments + NewPayments(policy, pub),
      AddPrograms(p.programs, policy.programs, pub))
  }

  /* ---- Removing a member ---- */

  /** A wallet's search for an address of its own: whether a search up to a limit reaches an index. */
  datatype Wallet = Wallet(reach: (nat, nat) -> bool)

  predicate Finds(wallet: Wallet, index: nat, limit: nat) {
    wallet.reach(index, limit)
  }

  /** The search finds each of the first `n` addresses. */
  ghost predicate AllFound(wallet: Wallet, n: nat, limit: nat) {
    forall i: nat | i < n :: Finds(wallet, i, limit)
  }

  predicate HasAddress(wallet: Wallet, pub: string, addr: Address, limit: nat) {
    addr.OfWallet? && addr.pub == pub && Finds(wallet, addr.index, limit)
  }

  function NotOwnPath(wallet: Wallet, pub: string, limit: nat): DraftPath -> bool {
    (e: DraftPath) => !HasAddress(wallet, pub, e.addr, limit)
  }

  function NotOwnPayment(wallet: Wallet, pub: string, limit: nat): DraftPayment -> bool {
    (e: DraftPayment) => !HasAddress(wallet, pub, e.addr, limit)
  }

  /** Entries of exactly five elements that name the member are dropped whole. */
  function Outlives(pub: string): ProgramEntry -> bool {
    (e: ProgramEntry) => !(|e| == 5 && pub in e)
  }

  function RemoveFirst(e: ProgramEntry, pub: string): ProgramEntry {
    if e == [] then []
    else if e[0] == pub then e[1..]
    else [e[0]] + RemoveFirst(e[1..], pub)
  }

  function RemoveFromEach(programs: seq<ProgramEntry>, pub: string): (r: seq<ProgramEntry>)
    ensures |r| == |programs|
    ensures forall i | 0 <= i < |r| :: r[i] == RemoveFirst(programs[i], pub)
  {
    if programs == [] then [] else [RemoveFirst(programs[0], pub)] + RemoveFromEach(programs[1..], pub)
  }

  function RemPrograms(programs: seq<ProgramEntry>, pub: string): seq<ProgramEntry> {
    RemoveFromEach(Filter(programs, Outlives(pub)), pub)
  }

  /** The searches go as far as there are paths, and as there are payments. */
  function RemMember(wallet: Wallet, pub: string, p: DraftProposal): DraftProposal {
    DraftProposal(
      Filter(p.paths, NotOwnPath(wallet, pub, |p.paths|)),
      Filter(p.payments, NotOwnPayment(wallet, pub, |p.payments|)),
      RemPrograms(p.programs, pub))
  }

  lemma AddProgramsAt(programs: seq<ProgramEntry>, list: seq<ProgramEntry>, pub: string, i: nat)
    requires i < |list|
    ensures AddPrograms(programs, list[i..], pub) == AddPrograms(AddProgram(programs, list[i], pub), list[i + 1..], pub)
  {
    assert list[i..][0] == list[i] && list[i..][1..] == list[i + 1..];
  }

  lemma NewPathsAt(terms: seq<PathTemplate>, pub: string, i: nat, paths: seq<DraftPath>)
    requires i < |terms|
    ensures paths + NewPaths(terms[i..], pub, i)
         == (paths + [DraftPath(terms[i].path, terms[i].value, OfWallet(pub, i))])
            + NewPaths(terms[i + 1..], pub, i + 1)
  {
    assert terms[i..][0] == terms[i] && terms[i..][1..] == terms[i + 1..];
    Associative(paths, [DraftPath(terms[i].path, terms[i].value, OfWallet(pub, i))],
      NewPaths(terms[i + 1..], pub, i + 1));
  }

  /** The proposal of a session, edited in place. */
  class Draft {
    var paths: seq<DraftPath>
    var payments: seq<DraftPayment>
    var programs: seq<ProgramEntry>

    function Value(): DraftProposal
      reads this
    {
      DraftProposal(paths, payments, programs)
    }

    constructor (p: DraftProposal)
      ensures Value() == p
    {
      paths, payments, programs := p.paths, p.payments, p.programs;
    }

    /** The first loop: one new address for each path of the role. */
    method AddPaths(pub: string, terms: seq<PathTemplate>)
      modifies this`paths
      ensures paths == old(paths) + NewPaths(terms, pub, 0)
    {
      ghost var all := paths + NewPaths(terms, pub, 0);
      var next: nat := 0;
      while next < |terms|
        invariant next <= |terms|
        invariant paths + NewPaths(terms[next..], pub, next) == all
      {
        NewPathsAt(terms, pub, next, paths);
        paths := paths + [DraftPath(terms[next].path, terms[next].value, OfWallet(pub, next))];
        next := next + 1;
      }
    }

    /** The second loop: the key joins the entry of each program, or a new one. */
    method AddToPrograms(pub: string, list: seq<ProgramEntry>)
      modifies this`programs
      ensures programs == AddPrograms(old(programs), list, pub)
    {
      ghost var all := AddPrograms(programs, list, pub);
      var i := 0;
      while i < |list|
        invariant 0 <= i <= |list|
        invariant AddPrograms(programs, list[i..], pub) == all
      {
        AddProgramsAt(programs, list, pub, i);
        var idx := GetProgramIdx(programs, list[i]);
        if idx.None? {
          programs := programs + [list[i] + [pub]];
        } else {
          programs := programs[idx.value := programs[idx.value] + [pub]];
        }
        i := i + 1;
      }
    }

    method AddMemberData(pub: string, policy: RolePolicy)
      modifies this
      ensures Value() == AddMember(pub, policy, old(Value()))
    {
      AddPaths(pub, policy.paths);
      if policy.payment.Some? && policy.payment.value > 0.0 {
        payments := payments + [DraftPayment(policy.payment.value, OfWallet(pub, |policy.paths|))];
      }
      AddToPrograms(pub, policy.programs);
    }

    method RemMemberData(wallet: Wallet, pub: string)
      modifies this
      ensures Value() == RemMember(wallet, pub, old(Value()))
    {
      paths := Filter(paths, NotOwnPath(wallet, pub, |paths|));
      payments := Filter(payments, NotOwnPayment(wallet, pub, |payments|));
      ghost var keptPaths, keptPayments := paths, payments;
      programs := Filter(programs, Outlives(pub));
      ghost var kept := programs;
      var i := 0;
      while i < |programs|
        invariant 0 <= i <= |programs| == |kept|
        invariant forall j | 0 <= j < |kept| :: programs[j] == if j < i then RemoveFirst(kept[j], pub) else kept[j]
        invariant paths == keptPaths && payments == keptPayments
      {
        programs := programs[i := RemoveFirst(programs[i], pub)];
        i := i + 1;
      }
      assert programs == RemoveFromEach(kept, pub);
    }
  }

  /* ---- Sessions ---- */

  datatype JoinError = MembershipExists | RoleMissing | RoleFull

  function GetRolePolicy(roles: seq<RolePolicy>, pid: string): (r: Option<RolePolicy>)
    ensures r.Some? ==> r.value in roles && r.value.id == pid
  {
    if roles == [] then None
    else if roles[0].id == pid then Some(roles[0])
    else GetRolePolicy(roles[1..], pid)
  }

  function Seated(members: seq<MemberData>, pid: string): nat {
    if members == [] then 0 else (if members[0].pid == pid then 1 else 0) + Seated(members[1..], pid)
  }

  predicate HasMembership(members: seq<MemberData>, pub: string) {
    exists m | m in members :: m.pub == pub
  }

  function JoinSession(s: DraftSession, pub: string, pid: string): Result<DraftSession, JoinError> {
    if HasMembership(s.members, pub) then Failure(MembershipExists)
    else
      match GetRolePolicy(s.roles, pid)
      case None => Failure(RoleMissing)
      case Some(policy) =>
        if Seated(s.members, pid) >= policy.seats then Failure(RoleFull)
        else Success(s.(members := s.members + [MemberData(pub, pid)], proposal := AddMember(pub, policy, s.proposal)))
  }

  function Others(pub: string): MemberData -> bool {
    (m: MemberData) => m.pub != pub
  }

  function LeaveSession(wallet: Wallet, s: DraftSession, pub: string): DraftSession {
    s.(members := Filter(s.members, Others(pub)), proposal := RemMember(wallet, pub, s.proposal))
  }

  datatype Edit = Join(pub: string, pid: string) | Leave(pub: string)

  /** One edit; a refused join changes nothing. */
  function Perform(wallet: Wallet, s: DraftSession, edit: Edit): DraftSession {
    match edit
    case Leave(pub) => LeaveSession(wallet, s, pub)
    case Join(pub, pid) => (match JoinSession(s, pub, pid) case Success(next) => next case Failure(_) => s)
  }

  function Play(wallet: Wallet, s: DraftSession, edits: seq<Edit>): DraftSession
    decreases |edits|
  {
    if edits == [] then s else Play(wallet, Perform(wallet, s, edits[0]), edits[1..])
  }

  /** The proposal after these members, and no others, have joined in order. */
  function JoinAll(p: DraftProposal, members: seq<MemberData>, roles: seq<RolePolicy>): DraftProposal
    decreases |members|
  {
    if members == [] then p
    else
      var before := JoinAll(p, members[..|members| - 1], roles);
      match GetRolePolicy(roles, members[|members| - 1].pid)
      case None => before
      case Some(policy) => AddMember(members[|members| - 1].pub, policy, before)
  }

  /* ---- What a proposal holds for a list of members ---- */

  /** The members listed under some terms. */
  function Roster(programs: seq<ProgramEntry>, terms: ProgramEntry): seq<string> {
    if programs == [] then []
    else if |programs[0]| >= 4 && programs[0][..4] == terms then programs[0][4..]
    else Roster(programs[1..], terms)
  }

  function PathShare(m: MemberData, roles: seq<RolePolicy>): seq<DraftPath> {
    match GetRolePolicy(roles, m.pid)
    case None => []
    case Some(policy) => NewPaths(policy.paths, m.pub, 0)
  }

  function PaymentShare(m: MemberData, roles: seq<RolePolicy>): seq<DraftPayment> {
    match GetRolePolicy(roles, m.pid)
    case None => []
    case Some(policy) => NewPayments(policy, m.pub)
  }

  predicate Lists(m: MemberData, roles: seq<RolePolicy>, terms: ProgramEntry) {
    match GetRolePolicy(roles, m.pid)
    case None => false
    case Some(policy) => terms in policy.programs
  }

  function Joining(joins: bool, pub: string): seq<string> {
    if joins then [pub] else []
  }

  function PathsOf(members: seq<MemberData>, roles: seq<RolePolicy>): seq<DraftPath> {
    if members == [] then [] else PathShare(members[0], roles) + PathsOf(members[1..], roles)
  }

  function PaymentsOf(members: seq<MemberData>, roles: seq<RolePolicy>): seq<DraftPayment> {
    if members == [] then [] else PaymentShare(members[0], roles) + PaymentsOf(members[1..], roles)
  }

  function ListedOn(members: seq<MemberData>, roles: seq<RolePolicy>, terms: ProgramEntry): seq<string> {
    if members == []
    then []
    else Joining(Lists(members[0], roles, terms), members[0].pub) + ListedOn(members[1..], roles, terms)
  }

  /* ---- Well-formed drafts ---- */

  /** Every entry has its four terms, and no two entries have the same. */
  ghost predicate Keyed(programs: seq<ProgramEntry>) {
    programs == [] || (|programs[0]| >= 4 && Absent(programs[1..], programs[0][..4]) && Keyed(programs[1..]))
  }

  /** No entry has these terms. */
  ghost predicate Absent(programs: seq<ProgramEntry>, terms: ProgramEntry) {
    forall e | e in programs :: |e| >= 4 && e[..4] != terms
  }

  /** A proposal and its roles, before anyone joins, that know none of these keys. */
  ghost predicate Fresh(s: DraftSession, keys: set<string>) {
    && s.members == []
    && Keyed(s.proposal.programs)
    && (forall e | e in s.proposal.programs :: ClearTerms(e, keys) && Distinct(e[4..]))
    && (forall e | e in s.proposal.paths :: e.addr.OfWallet? ==> e.addr.pub !in keys)
    && (forall e | e in s.proposal.payments :: e.addr.OfWallet? ==> e.addr.pub !in keys)
    && (forall policy | policy in s.roles :: PlainTerms(policy.programs, keys))
  }

  /* ---- Program entries ---- */

  lemma SameTermsIsKey(e: ProgramEntry, terms: ProgramEntry)
    requires |e| >= 4 && |terms| == 4
    ensures SameTerms(e, terms) <==> e[..4] == terms
  {
    if SameTerms(e, terms) {
      assert At(e, 0) == At(terms, 0) && At(e, 1) == At(terms, 1);
      assert At(e, 2) == At(terms, 2) && At(e, 3) == At(terms, 3);
      assert e[..4] == terms;
    }
  }

  lemma {:induction false} RosterAbsent(programs: seq<ProgramEntry>, terms: ProgramEntry)
    requires Absent(programs, terms)
    ensures Roster(programs, terms) == []
  {
    if programs != [] {
      RosterAbsent(programs[1..], terms);
    }
  }

  lemma {:induction false} RosterOfAppend(programs: seq<ProgramEntry>, e: ProgramEntry, terms: ProgramEntry)
    requires Keyed(programs) && |e| >= 4 && Absent(programs, e[..4])
    ensures Keyed(programs + [e])
    ensures Roster(programs + [e], terms) == if terms == e[..4] then e[4..] else Roster(programs, terms)
  {
    var all := programs + [e];
    if programs == [] {
      assert all == [e] && all[1..] == [];
    } else {
      assert all[1..] == programs[1..] + [e];
      assert programs[0] in programs;
      RosterOfAppend(programs[1..], e, terms);
    }
  }

  lemma {:induction false} RosterOfGrow(programs: seq<ProgramEntry>, i: nat, pub: string, terms: ProgramEntry)
    requires Keyed(programs) && i < |programs| && |programs[i]| >= 4
    ensures var grown := programs[i := programs[i] + [pub]];
            && Keyed(grown)
            && Roster(grown, terms) == Roster(programs, terms) + Joining(terms == programs[i][..4], pub)
  {
    var grown := programs[i := programs[i] + [pub]];
    var e := programs[0];
    if i == 0 {
      assert grown[1..] == programs[1..];
      assert (e + [pub])[..4] == e[..4] && (e + [pub])[4..] == e[4..] + [pub];
    } else {
      var tail := programs[1..];
      assert programs[i] == tail[i - 1] && programs[i] in tail;
      assert grown[1..] == tail[i - 1 := tail[i - 1] + [pub]];
      assert (programs[i] + [pub])[..4] == programs[i][..4];
      RosterOfGrow(tail, i - 1, pub, terms);
    }
  }

  lemma {:induction false} KeyedLengths(programs: seq<ProgramEntry>)
    requires Keyed(programs)
    ensures forall e | e in programs :: |e| >= 4
  {
    if programs != [] {
      KeyedLengths(programs[1..]);
    }
  }

  /** None of these keys is mentioned in the terms of an entry. */
  ghost predicate Clear(programs: seq<ProgramEntry>, keys: set<string>) {
    forall e | e in programs :: ClearEntry(e, keys)
  }

  ghost predicate ClearEntry(e: ProgramEntry, keys: set<string>) {
    |e| >= 4 && ClearTerms(e[..4], keys)
  }

  ghost predicate ClearTerms(terms: ProgramEntry, keys: set<string>) {
    forall x | x in terms :: x !in keys
  }

  lemma AddProgramKeyed(programs: seq<ProgramEntry>, t: ProgramEntry, pub: string, keys: set<string>)
    requires Keyed(programs) && |t| == 4 && Clear(programs, keys) && ClearTerms(t, keys)
    ensures Keyed(AddProgram(programs, t, pub)) && Clear(AddProgram(programs, t, pub), keys)
  {
    KeyedLengths(programs);
    forall e | e in programs
      ensures SameTerms(e, t) <==> e[..4] == t
    {
      SameTermsIsKey(e, t);
    }
    match GetProgramIdx(programs, t) {
      case None =>
        assert (t + [pub])[..4] == t;
        RosterOfAppend(programs, t + [pub], t);
      case Some(i) =>
        RosterOfGrow(programs, i, pub, t);
        assert programs[i] in programs;
        assert (programs[i] + [pub])[..4] == programs[i][..4];
    }
  }

  lemma AddProgramRoster(programs: seq<ProgramEntry>, t: ProgramEntry, pub: string, terms: ProgramEntry)
    requires Keyed(programs) && |t| == 4
    ensures Roster(AddProgram(programs, t, pub), terms) == Roster(programs, terms) + Joining(terms == t, pub)
  {
    KeyedLengths(programs);
    forall e | e in programs
      ensures SameTerms(e, t) <==> e[..4] == t
    {
      SameTermsIsKey(e, t);
    }
    match GetProgramIdx(programs, t) {
      case None =>
        assert (t + [pub])[..4] == t && (t + [pub])[4..] == [pub];
        RosterAbsent(programs, t);
        RosterOfAppend(programs, t + [pub], terms);
      case Some(i) =>
        RosterOfGrow(programs, i, pub, terms);
        assert programs[i] in programs;
    }
  }

  ghost predicate PlainTerms(list: seq<ProgramEntry>, keys: set<string>) {
    && (forall t | t in list :: |t| == 4 && ClearTerms(t, keys))
    && Distinct(list)
  }

  lemma PlainHead(list: seq<ProgramEntry>, keys: set<string>)
    requires PlainTerms(list, keys) && list != []
    ensures |list[0]| == 4 && ClearTerms(list[0], keys) && PlainTerms(list[1..], keys) && list[0] !in list[1..]
    ensures forall t | t in list :: t == list[0] || t in list[1..]
  {
  }

  lemma {:induction false} AddProgramsKeyed(
    programs: seq<ProgramEntry>, list: seq<ProgramEntry>, pub: string, keys: set<string>)
    requires Keyed(programs) && Clear(programs, keys) && PlainTerms(list, keys)
    ensures Keyed(AddPrograms(programs, list, pub)) && Clear(AddPrograms(programs, list, pub), keys)
    decreases |list|
  {
    if list != [] {
      PlainHead(list, keys);
      AddProgramKeyed(programs, list[0], pub, keys);
      AddProgramsKeyed(AddProgram(programs, list[0], pub), list[1..], pub, keys);
    }
  }

  lemma {:induction false} AddProgramsRoster(
    programs: seq<ProgramEntry>, list: seq<ProgramEntry>, pub: string, keys: set<string>, terms: ProgramEntry)
    requires Keyed(programs) && Clear(programs, keys) && PlainTerms(list, keys)
    ensures Roster(AddPrograms(programs, list, pub), terms) == Roster(programs, terms) + Joining(terms in list, pub)
    decreases |list|
  {
    if list != [] {
      PlainHead(list, keys);
      AddProgramKeyed(programs, list[0], pub, keys);
      AddProgramRoster(programs, list[0], pub, terms);
      AddProgramsRoster(AddProgram(programs, list[0], pub), list[1..], pub, keys, terms);
    }
  }

  lemma {:induction false} RemoveFirstSkips(key: ProgramEntry, rest: ProgramEntry, pub: string)
    requires pub !in key
    ensures RemoveFirst(key + rest, pub) == key + RemoveFirst(rest, pub)
  {
    if key == [] {
      assert key + rest == rest;
    } else {
      assert (key + rest)[1..] == key[1..] + rest;
      RemoveFirstSkips(key[1..], rest, pub);
    }
  }

  function Not(pub: string): string -> bool {
    (x: string) => x != pub
  }

  lemma {:induction false} RemoveOnly(s: seq<string>, pub: string)
    requires Distinct(s)
    ensures RemoveFirst(s, pub) == Filter(s, Not(pub))
  {
    if s != [] {
      if s[0] == pub {
        FilterAll(s[1..], Not(pub));
      } else {
        RemoveOnly(s[1..], pub);
      }
    }
  }

  /** What removal makes of one entry. */
  lemma RemovedEntry(e: ProgramEntry, pub: string)
    requires |e| >= 4 && pub !in e[..4] && Distinct(e[4..])
    ensures Outlives(pub)(e) ==>
              var r := RemoveFirst(e, pub);
              |r| >= 4 && r[..4] == e[..4] && r[4..] == Filter(e[4..], Not(pub))
    ensures !Outlives(pub)(e) ==> Filter(e[4..], Not(pub)) == []
  {
    assert e == e[..4] + e[4..];
    if Outlives(pub)(e) {
      RemoveFirstSkips(e[..4], e[4..], pub);
      RemoveOnly(e[4..], pub);
    } else {
      assert e[4] == pub;
      assert e[4..] == [pub];
    }
  }

  /** Every entry lists this key at most once, and only as a member. */
  ghost predicate Removable(programs: seq<ProgramEntry>, pub: string) {
    forall e | e in programs :: |e| >= 4 && pub !in e[..4] && Distinct(e[4..])
  }

  lemma RemProgramsStep(programs: seq<ProgramEntry>, pub: string)
    requires programs != []
    ensures var r, rest := RemPrograms(programs, pub), RemPrograms(programs[1..], pub);
            if Outlives(pub)(programs[0])
            then r != [] && r[0] == RemoveFirst(programs[0], pub) && r[1..] == rest
            else r == rest
  {
    var kept := Filter(programs[1..], Outlives(pub));
    if Outlives(pub)(programs[0]) {
      assert Filter(programs, Outlives(pub)) == [programs[0]] + kept;
    } else {
      assert Filter(programs, Outlives(pub)) == kept;
    }
  }

  lemma {:induction false} RemProgramsAbsent(programs: seq<ProgramEntry>, pub: string, terms: ProgramEntry)
    requires Absent(programs, terms) && Removable(programs, pub)
    ensures Absent(RemPrograms(programs, pub), terms)
  {
    if programs != [] {
      RemProgramsStep(programs, pub);
      RemovedEntry(programs[0], pub);
      RemProgramsAbsent(programs[1..], pub, terms);
    }
  }

  lemma {:induction false} RemProgramsKeyed(programs: seq<ProgramEntry>, pub: string, keys: set<string>)
    requires Keyed(programs) && Removable(programs, pub) && Clear(programs, keys)
    ensures Keyed(RemPrograms(programs, pub)) && Clear(RemPrograms(programs, pub), keys)
  {
    if programs != [] {
      RemProgramsStep(programs, pub);
      RemovedEntry(programs[0], pub);
      RemProgramsKeyed(programs[1..], pub, keys);
      RemProgramsAbsent(programs[1..], pub, programs[0][..4]);
    }
  }

  lemma {:induction false} RemProgramsRoster(programs: seq<ProgramEntry>, pub: string, terms: ProgramEntry)
    requires Keyed(programs) && Removable(programs, pub)
    ensures Roster(RemPrograms(programs, pub), terms) == Filter(Roster(programs, terms), Not(pub))
  {
    if programs != [] {
      var e := programs[0];
      RemProgramsStep(programs, pub);
      RemovedEntry(e, pub);
      if terms == e[..4] {
        if !Outlives(pub)(e) {
          RemProgramsAbsent(programs[1..], pub, terms);
          RosterAbsent(RemPrograms(programs[1..], pub), terms);
        }
      } else {
        RemProgramsRoster(programs[1..], pub, terms);
      }
    }
  }

  /* ---- Paths and payments ---- */

  lemma {:induction false} OwnPaths(terms: seq<PathTemplate>, pub: string, next: nat)
    ensures forall e | e in NewPaths(terms, pub, next) :: e.addr.OfWallet? && e.addr.pub == pub
    decreases |terms|
  {
    if terms != [] {
      OwnPaths(terms[1..], pub, next + 1);
    }
  }

  lemma KeptMembers(members: seq<MemberData>, pub: string)
    requires members != []
    ensures var kept, rest := Filter(members, Others(pub)), Filter(members[1..], Others(pub));
            if members[0].pub == pub then kept == rest else kept == [members[0]] + rest && kept[1..] == rest
  {
  }

  lemma {:induction false} SharesOfAppend(members: seq<MemberData>, m: MemberData, roles: seq<RolePolicy>)
    ensures PathsOf(members + [m], roles) == PathsOf(members, roles) + PathShare(m, roles)
    ensures PaymentsOf(members + [m], roles) == PaymentsOf(members, roles) + PaymentShare(m, roles)
  {
    if members != [] {
      assert (members + [m])[1..] == members[1..] + [m];
      SharesOfAppend(members[1..], m, roles);
    }
  }

  lemma {:induction false} ListedOfAppend(
    members: seq<MemberData>, m: MemberData, roles: seq<RolePolicy>, terms: ProgramEntry)
    ensures ListedOn(members + [m], roles, terms)
        == ListedOn(members, roles, terms) + Joining(Lists(m, roles, terms), m.pub)
  {
    if members != [] {
      assert (members + [m])[1..] == members[1..] + [m];
      ListedOfAppend(members[1..], m, roles, terms);
    }
  }

  /** The searches of a member who leaves reach the addresses its role made. */
  ghost predicate Reaches(
    wallet: Wallet, members: seq<MemberData>, roles: seq<RolePolicy>, pub: string, pathLimit: nat, payLimit: nat) {
    forall m | m in members && m.pub == pub :: ReachesShare(wallet, m, roles, pathLimit, payLimit)
  }

  ghost predicate ReachesShare(wallet: Wallet, m: MemberData, roles: seq<RolePolicy>, pathLimit: nat, payLimit: nat) {
    match GetRolePolicy(roles, m.pid)
    case None => true
    case Some(policy) =>
      && AllFound(wallet, |policy.paths|, pathLimit)
      && (NewPayments(policy, m.pub) != [] ==> Finds(wallet, |policy.paths|, payLimit))
  }

  /** What is left of one member's share when a key is taken out. */
  lemma ShareTakenOut(wallet: Wallet, m: MemberData, roles: seq<RolePolicy>, pub: string, pathLimit: nat, payLimit: nat)
    requires m.pub == pub ==> ReachesShare(wallet, m, roles, pathLimit, payLimit)
    ensures Filter(PathShare(m, roles), NotOwnPath(wallet, pub, pathLimit)) ==
        if m.pub == pub
        then []
        else PathShare(m, roles)
    ensures Filter(PaymentShare(m, roles), NotOwnPayment(wallet, pub, payLimit)) ==
        if m.pub == pub
        then []
        else PaymentShare(m, roles)
  {
    match GetRolePolicy(roles, m.pid) {
      case None =>
      case Some(policy) =>
        OwnPaths(policy.paths, m.pub, 0);
        if m.pub == pub {
          OwnPathsFound(wallet, policy.paths, pub, pathLimit);
          FilterNone(NewPayments(policy, pub), NotOwnPayment(wallet, pub, payLimit));
        } else {
          FilterAll(PathShare(m, roles), NotOwnPath(wallet, pub, pathLimit));
          FilterAll(PaymentShare(m, roles), NotOwnPayment(wallet, pub, payLimit));
        }
    }
  }

  /** Taking out a member's entries leaves what the other members brought. */
  lemma {:induction false} RemovedShares(
    wallet: Wallet, members: seq<MemberData>, roles: seq<RolePolicy>, pub: string, pathLimit: nat, payLimit: nat)
    requires Reaches(wallet, members, roles, pub, pathLimit, payLimit)
    ensures Filter(PathsOf(members, roles), NotOwnPath(wallet, pub, pathLimit))
        == PathsOf(Filter(members, Others(pub)), roles)
    ensures Filter(PaymentsOf(members, roles), NotOwnPayment(wallet, pub, payLimit))
        == PaymentsOf(Filter(members, Others(pub)), roles)
  {
    if members != [] {
      ShareTakenOut(wallet, members[0], roles, pub, pathLimit, payLimit);
      RemovedShares(wallet, members[1..], roles, pub, pathLimit, payLimit);
      FilterConcat(PathShare(members[0], roles), PathsOf(members[1..], roles), NotOwnPath(wallet, pub, pathLimit));
      FilterConcat(PaymentShare(members[0], roles), PaymentsOf(members[1..], roles),
        NotOwnPayment(wallet, pub, payLimit));
      KeptMembers(members, pub);
    }
  }

  lemma {:induction false} RemovedListed(
    members: seq<MemberData>, roles: seq<RolePolicy>, terms: ProgramEntry, pub: string)
    ensures Filter(ListedOn(members, roles, terms), Not(pub)) == ListedOn(Filter(members, Others(pub)), roles, terms)
  {
    if members != [] {
      RemovedListed(members[1..], roles, terms, pub);
      KeptMembers(members, pub);
      FilterConcat(Joining(Lists(members[0], roles, terms), members[0].pub), ListedOn(members[1..], roles, terms),
        Not(pub));
    }
  }

  /* ---- Whole sessions ---- */

  /** The proposal holds the original entries and then, in order, those of these members. */
  ghost predicate HoldsFor(s0: DraftSession, members: seq<MemberData>, p: DraftProposal, keys: set<string>) {
    && p.paths == s0.proposal.paths + PathsOf(members, s0.roles)
    && p.payments == s0.proposal.payments + PaymentsOf(members, s0.roles)
    && Keyed(p.programs) && Clear(p.programs, keys)
    && forall terms :: RosterFor(s0, members, p, terms)
  }

  ghost predicate RosterFor(s0: DraftSession, members: seq<MemberData>, p: DraftProposal, terms: ProgramEntry) {
    Roster(p.programs, terms) == Roster(s0.proposal.programs, terms) + ListedOn(members, s0.roles, terms)
  }

  ghost predicate DistinctMembers(members: seq<MemberData>) {
    forall i, j | 0 <= i < j < |members| :: members[i].pub != members[j].pub
  }

  ghost predicate SeatsKept(members: seq<MemberData>, roles: seq<RolePolicy>) {
    forall pid | Seated(members, pid) > 0 ::
      GetRolePolicy(roles, pid).Some? && Seated(members, pid) <= GetRolePolicy(roles, pid).value.seats
  }

  lemma AddRoster(
    s0: DraftSession, members: seq<MemberData>, p: DraftProposal, m: MemberData, policy: RolePolicy,
    keys: set<string>, terms: ProgramEntry)
    requires Keyed(p.programs) && Clear(p.programs, keys) && PlainTerms(policy.programs, keys)
    requires GetRolePolicy(s0.roles, m.pid) == Some(policy)
    requires RosterFor(s0, members, p, terms)
    ensures RosterFor(s0, members + [m], AddMember(m.pub, policy, p), terms)
  {
    ListedOfAppend(members, m, s0.roles, terms);
    AddProgramsRoster(p.programs, policy.programs, m.pub, keys, terms);
  }

  lemma AddShares(s0: DraftSession, members: seq<MemberData>, p: DraftProposal, m: MemberData, policy: RolePolicy)
    requires GetRolePolicy(s0.roles, m.pid) == Some(policy)
    requires p.paths == s0.proposal.paths + PathsOf(members, s0.roles)
    requires p.payments == s0.proposal.payments + PaymentsOf(members, s0.roles)
    ensures AddMember(m.pub, policy, p).paths == s0.proposal.paths + PathsOf(members + [m], s0.roles)
    ensures AddMember(m.pub, policy, p).payments == s0.proposal.payments + PaymentsOf(members + [m], s0.roles)
  {
    SharesOfAppend(members, m, s0.roles);
    assert PathShare(m, s0.roles) == NewPaths(policy.paths, m.pub, 0);
    assert PaymentShare(m, s0.roles) == NewPayments(policy, m.pub);
    Associative(s0.proposal.paths, PathsOf(members, s0.roles), PathShare(m, s0.roles));
    Associative(s0.proposal.payments, PaymentsOf(members, s0.roles), PaymentShare(m, s0.roles));
  }

  lemma AddHolds(
    s0: DraftSession, members: seq<MemberData>, p: DraftProposal, m: MemberData, policy: RolePolicy,
    keys: set<string>)
    requires PlainTerms(policy.programs, keys) && HoldsFor(s0, members, p, keys)
    requires GetRolePolicy(s0.roles, m.pid) == Some(policy)
    ensures HoldsFor(s0, members + [m], AddMember(m.pub, policy, p), keys)
  {
    AddShares(s0, members, p, m, policy);
    AddProgramsKeyed(p.programs, policy.programs, m.pub, keys);
    forall terms
      ensures RosterFor(s0, members + [m], AddMember(m.pub, policy, p), terms)
    {
      AddRoster(s0, members, p, m, policy, keys, terms);
    }
  }

  lemma {:induction false} RosterOf(programs: seq<ProgramEntry>, e: ProgramEntry)
    requires Keyed(programs) && e in programs && |e| >= 4
    ensures Roster(programs, e[..4]) == e[4..]
  {
    if programs[0] != e {
      RosterOf(programs[1..], e);
    }
  }

  lemma RemRoster(
    wallet: Wallet, s0: DraftSession, members: seq<MemberData>, p: DraftProposal, pub: string, terms: ProgramEntry)
    requires Keyed(p.programs) && Removable(p.programs, pub) && RosterFor(s0, members, p, terms)
    requires pub !in Roster(s0.proposal.programs, terms)
    ensures RosterFor(s0, Filter(members, Others(pub)), RemMember(wallet, pub, p), terms)
  {
    RemProgramsRoster(p.programs, pub, terms);
    FilterConcat(Roster(s0.proposal.programs, terms), ListedOn(members, s0.roles, terms), Not(pub));
    FilterAll(Roster(s0.proposal.programs, terms), Not(pub));
    RemovedListed(members, s0.roles, terms, pub);
  }

  /** No roster of the fresh proposal names one of the keys, or repeats a name. */
  lemma {:induction false} FreshRosters(programs: seq<ProgramEntry>, keys: set<string>, terms: ProgramEntry)
    requires forall e | e in programs :: ClearTerms(e, keys) && Distinct(e[if |e| < 4 then |e| else 4..])
    ensures ClearTerms(Roster(programs, terms), keys) && Distinct(Roster(programs, terms))
  {
    if programs != [] {
      assert programs[0] in programs;
      FreshRosters(programs[1..], keys, terms);
    }
  }

  lemma EntriesRemovable(s0: DraftSession, members: seq<MemberData>, p: DraftProposal, keys: set<string>, pub: string)
    requires Fresh(s0, keys) && HoldsFor(s0, members, p, keys) && DistinctMembers(members) && pub in keys
    requires forall m | m in members :: m.pub in keys
    ensures Removable(p.programs, pub)
  {
    KeyedLengths(p.programs);
    forall e | e in p.programs
      ensures |e| >= 4 && pub !in e[..4] && Distinct(e[4..])
    {
      var terms := e[..4];
      assert ClearEntry(e, keys) && RosterFor(s0, members, p, terms);
      RosterOf(p.programs, e);
      KeyedLengths(s0.proposal.programs);
      FreshRosters(s0.proposal.programs, keys, terms);
      ListedAreMembers(members, s0.roles, terms);
      JointDistinct(Roster(s0.proposal.programs, terms), ListedOn(members, s0.roles, terms), keys);
    }
  }

  lemma JointDistinct(a: seq<string>, b: seq<string>, keys: set<string>)
    requires Distinct(a) && Distinct(b) && ClearTerms(a, keys)
    requires forall x | x in b :: x in keys
    ensures Distinct(a + b)
  {
    forall i, j | 0 <= i < j < |a + b|
      ensures (a + b)[i] != (a + b)[j]
    {
      if i < |a| <= j {
        assert a[i] in a && b[j - |a|] in b;
      }
    }
  }

  lemma RemHolds(
    wallet: Wallet, s0: DraftSession, members: seq<MemberData>, p: DraftProposal, keys: set<string>, pub: string)
    requires Fresh(s0, keys) && HoldsFor(s0, members, p, keys) && DistinctMembers(members) && pub in keys
    requires forall m | m in members :: m.pub in keys
    requires Reaches(wallet, members, s0.roles, pub, |p.paths|, |p.payments|)
    ensures HoldsFor(s0, Filter(members, Others(pub)), RemMember(wallet, pub, p), keys)
  {
    RemovedShares(wallet, members, s0.roles, pub, |p.paths|, |p.payments|);
    FilterConcat(s0.proposal.paths, PathsOf(members, s0.roles), NotOwnPath(wallet, pub, |p.paths|));
    FilterConcat(s0.proposal.payments, PaymentsOf(members, s0.roles), NotOwnPayment(wallet, pub, |p.payments|));
    FilterAll(s0.proposal.paths, NotOwnPath(wallet, pub, |p.paths|));
    FilterAll(s0.proposal.payments, NotOwnPayment(wallet, pub, |p.payments|));
    EntriesRemovable(s0, members, p, keys, pub);
    RemProgramsKeyed(p.programs, pub, keys);
    forall terms
      ensures RosterFor(s0, Filter(members, Others(pub)), RemMember(wallet, pub, p), terms)
    {
      assert RosterFor(s0, members, p, terms);
      KeyedLengths(s0.proposal.programs);
      FreshRosters(s0.proposal.programs, keys, terms);
      RemRoster(wallet, s0, members, p, pub, terms);
    }
  }

  lemma {:induction false} ListedAreMembers(members: seq<MemberData>, roles: seq<RolePolicy>, terms: ProgramEntry)
    requires DistinctMembers(members)
    ensures Distinct(ListedOn(members, roles, terms))
    ensures forall x | x in ListedOn(members, roles, terms) :: HasMembership(members, x)
  {
    if members != [] {
      ListedAreMembers(members[1..], roles, terms);
      assert members == [members[0]] + members[1..];
      assert !HasMembership(members[1..], members[0].pub);
    }
  }

  /** A session under way: its members hold seats, and the proposal holds theirs and no more. */
  ghost predicate Accounts(s0: DraftSession, s: DraftSession, keys: set<string>) {
    && s.roles == s0.roles
    && DistinctMembers(s.members)
    && (forall m | m in s.members :: m.pub in keys && GetRolePolicy(s.roles, m.pid).Some?)
    && SeatsKept(s.members, s.roles)
    && HoldsFor(s0, s.members, s.proposal, keys)
  }

  lemma {:induction false} SeatedAppend(members: seq<MemberData>, m: MemberData, pid: string)
    ensures Seated(members + [m], pid) == Seated(members, pid) + if m.pid == pid then 1 else 0
  {
    if members != [] {
      assert (members + [m])[1..] == members[1..] + [m];
      SeatedAppend(members[1..], m, pid);
    }
  }

  lemma {:induction false} LeavingKeeps(members: seq<MemberData>, pub: string, pid: string)
    requires DistinctMembers(members)
    ensures Seated(Filter(members, Others(pub)), pid) <= Seated(members, pid)
    ensures DistinctMembers(Filter(members, Others(pub)))
  {
    if members != [] {
      KeptMembers(members, pub);
      LeavingKeeps(members[1..], pub, pid);
      assert forall m | m in members[1..] :: m.pub != members[0].pub;
    }
  }

  lemma JoinSeats(s: DraftSession, pub: string, pid: string)
    requires DistinctMembers(s.members) && SeatsKept(s.members, s.roles)
    requires JoinSession(s, pub, pid).Success?
    ensures DistinctMembers(s.members + [MemberData(pub, pid)])
    ensures SeatsKept(s.members + [MemberData(pub, pid)], s.roles)
  {
    var after := s.members + [MemberData(pub, pid)];
    forall id | Seated(after, id) > 0
      ensures GetRolePolicy(s.roles, id).Some? && Seated(after, id) <= GetRolePolicy(s.roles, id).value.seats
    {
      SeatedAppend(s.members, MemberData(pub, pid), id);
    }
    assert forall i | 0 <= i < |s.members| :: s.members[i] in s.members;
  }

  /** The first role of a list with an id. */
  predicate IsRole(roles: seq<RolePolicy>, i: nat, pid: string) {
    i < |roles| && roles[i].id == pid && forall k | 0 <= k < i :: roles[k].id != pid
  }

  lemma {:induction false} RoleIs(roles: seq<RolePolicy>, i: nat, pid: string)
    requires IsRole(roles, i, pid)
    ensures GetRolePolicy(roles, pid) == Some(roles[i])
  {
    if i > 0 {
      RoleIs(roles[1..], i - 1, pid);
    }
  }

  lemma {:induction false} NoRole(roles: seq<RolePolicy>, pid: string)
    requires forall r | r in roles :: r.id != pid
    ensures GetRolePolicy(roles, pid) == None
  {
    if roles != [] {
      NoRole(roles[1..], pid);
    }
  }

  function InRole(pid: string): MemberData -> bool {
    (m: MemberData) => m.pid == pid
  }

  lemma {:induction false} SeatedCounts(members: seq<MemberData>, pid: string)
    ensures Seated(members, pid) == |Filter(members, InRole(pid))|
  {
    if members != [] {
      SeatedCounts(members[1..], pid);
    }
  }

  /**
   What a member brings: each path of the role with its value to an address of its own, and the
   payment to the next one.
   */
  ghost predicate Brings(p: DraftProposal, p': DraftProposal, policy: RolePolicy, pub: string) {
    && |p'.paths| == |p.paths| + |policy.paths| && p.paths <= p'.paths
    && (forall k | 0 <= k < |policy.paths| ::
          p'.paths[|p.paths| + k] == DraftPath(policy.paths[k].path, policy.paths[k].value, OfWallet(pub, k)))
    && p'.payments == p.payments +
         match policy.payment
         case None => []
         case Some(value) => if value > 0.0 then [DraftPayment(value, OfWallet(pub, |policy.paths|))] else []
  }

  /**
   A key joins a role exactly when it is not a member and fewer members have the role than it
   has seats; it is then the last member, and brings what the first role of that id lists.
   */
  lemma {:induction false} JoinBrings(s: DraftSession, pub: string, pid: string, i: nat)
    requires IsRole(s.roles, i, pid)
    ensures JoinSession(s, pub, pid).Success? <==>
              (forall m | m in s.members :: m.pub != pub)
              && |Filter(s.members, InRole(pid))| < s.roles[i].seats
    ensures JoinSession(s, pub, pid).Success? ==>
              var next := JoinSession(s, pub, pid).value;
              && next.members == s.members + [MemberData(pub, pid)] && next.roles == s.roles
              && Brings(s.proposal, next.proposal, s.roles[i], pub)
  {
    RoleIs(s.roles, i, pid);
    SeatedCounts(s.members, pid);
    var policy := s.roles[i];
    var own := NewPaths(policy.paths, pub, 0);
    NewPathsLength(policy.paths, pub, 0);
    forall k | 0 <= k < |policy.paths|
      ensures own[k] == DraftPath(policy.paths[k].path, policy.paths[k].value, OfWallet(pub, k))
    {
      NewPathAt(policy.paths, pub, 0, k);
    }
  }

  /** A role that is not listed cannot be joined. */
  lemma {:induction false} JoinNeedsRole(s: DraftSession, pub: string, pid: string)
    requires forall r | r in s.roles :: r.id != pid
    ensures JoinSession(s, pub, pid).Failure?
  {
    NoRole(s.roles, pid);
  }

  lemma JoinKeeps(s0: DraftSession, s: DraftSession, pub: string, pid: string, keys: set<string>)
    requires Fresh(s0, keys) && Accounts(s0, s, keys) && pub in keys
    requires JoinSession(s, pub, pid).Success?
    ensures Accounts(s0, JoinSession(s, pub, pid).value, keys)
  {
    JoinSeats(s, pub, pid);
    AddHolds(s0, s.members, s.proposal, MemberData(pub, pid), GetRolePolicy(s.roles, pid).value, keys);
  }

  /** A leave that finds all it has to take out. */
  ghost predicate LeaveReaches(wallet: Wallet, s: DraftSession, edit: Edit) {
    edit.Leave? ==> Reaches(wallet, s.members, s.roles, edit.pub, |s.proposal.paths|, |s.proposal.payments|)
  }

  /** So do all the leaves of a run. */
  ghost predicate LeavesReach(wallet: Wallet, s: DraftSession, edits: seq<Edit>)
    decreases |edits|
  {
    edits == [] || (LeaveReaches(wallet, s, edits[0]) && LeavesReach(wallet, Perform(wallet, s, edits[0]), edits[1..]))
  }

  lemma LeaveKeeps(wallet: Wallet, s0: DraftSession, s: DraftSession, pub: string, keys: set<string>)
    requires Fresh(s0, keys) && Accounts(s0, s, keys) && pub in keys
    requires LeaveReaches(wallet, s, Leave(pub))
    ensures Accounts(s0, LeaveSession(wallet, s, pub), keys)
  {
    RemHolds(wallet, s0, s.members, s.proposal, keys, pub);
    LeavingKeeps(s.members, pub, "");
    forall id | Seated(Filter(s.members, Others(pub)), id) > 0
      ensures GetRolePolicy(s.roles, id).Some?
          && Seated(Filter(s.members, Others(pub)), id) <= GetRolePolicy(s.roles, id).value.seats
    {
      LeavingKeeps(s.members, pub, id);
    }
  }

  lemma PerformKeeps(wallet: Wallet, s0: DraftSession, s: DraftSession, edit: Edit, keys: set<string>)
    requires LeaveReaches(wallet, s, edit)
    requires Fresh(s0, keys) && Accounts(s0, s, keys) && edit.pub in keys
    ensures Accounts(s0, Perform(wallet, s, edit), keys)
  {
    if edit.Leave? {
      LeaveKeeps(wallet, s0, s, edit.pub, keys);
    } else if JoinSession(s, edit.pub, edit.pid).Success? {
      JoinKeeps(s0, s, edit.pub, edit.pid, keys);
    }
  }

  lemma {:induction false} PlayKeeps(
    wallet: Wallet, s0: DraftSession, s: DraftSession, edits: seq<Edit>, keys: set<string>)
    requires LeavesReach(wallet, s, edits)
    requires Fresh(s0, keys) && Accounts(s0, s, keys)
    requires forall e | e in edits :: e.pub in keys
    ensures Accounts(s0, Play(wallet, s, edits), keys)
    decreases |edits|
  {
    if edits != [] {
      assert edits[0] in edits;
      PerformKeeps(wallet, s0, s, edits[0], keys);
      PlayKeeps(wallet, s0, Perform(wallet, s, edits[0]), edits[1..], keys);
    }
  }

  lemma {:induction false} JoinAllHolds(s0: DraftSession, members: seq<MemberData>, keys: set<string>)
    requires Fresh(s0, keys)
    requires forall m | m in members :: GetRolePolicy(s0.roles, m.pid).Some?
    ensures HoldsFor(s0, members, JoinAll(s0.proposal, members, s0.roles), keys)
    decreases |members|
  {
    if members == [] {
      KeyedLengths(s0.proposal.programs);
    } else {
      var front, last := members[..|members| - 1], members[|members| - 1];
      assert members == front + [last];
      JoinAllHolds(s0, front, keys);
      AddHolds(s0, front, JoinAll(s0.proposal, front, s0.roles), last, GetRolePolicy(s0.roles, last.pid).value, keys);
    }
  }

  lemma FreshAccounts(s0: DraftSession, keys: set<string>)
    requires Fresh(s0, keys)
    ensures Accounts(s0, s0, keys)
  {
    JoinAllHolds(s0, [], keys);
  }

  /** An entry with members is in the list exactly when its members are the roster of its terms. */
  lemma {:induction false} InRoster(programs: seq<ProgramEntry>, e: ProgramEntry)
    requires Keyed(programs) && |e| > 4
    ensures e in programs <==> Roster(programs, e[..4]) == e[4..]
  {
    assert e == e[..4] + e[4..];
    if programs != [] {
      var x := programs[0];
      assert x == x[..4] + x[4..];
      assert programs == [x] + programs[1..];
      if x[..4] == e[..4] {
        assert e !in programs[1..];
      } else {
        InRoster(programs[1..], e);
      }
    }
  }

  /**
   However members join and leave, the draft ends as if only the members still there had
   joined, in that order: the same paths and payments, the same members under every
   program's terms, and the same entries with members, provided each leave's searches reach
   the addresses that the member's role made. No key is a member twice, and no role
   has more members than seats.
   */
  lemma {:induction false} LeavingUndoesJoining(wallet: Wallet, s0: DraftSession, edits: seq<Edit>, keys: set<string>)
    requires LeavesReach(wallet, s0, edits)
    requires Fresh(s0, keys) && forall e | e in edits :: e.pub in keys
    ensures var s := Play(wallet, s0, edits);
            var only := JoinAll(s0.proposal, s.members, s0.roles);
            && s.proposal.paths == only.paths
            && s.proposal.payments == only.payments
            && (forall terms :: Roster(s.proposal.programs, terms) == Roster(only.programs, terms))
            && (forall e | |e| > 4 :: e in s.proposal.programs <==> e in only.programs)
            && DistinctMembers(s.members)
            && SeatsKept(s.members, s0.roles)
  {
    FreshAccounts(s0, keys);
    PlayKeeps(wallet, s0, s0, edits, keys);
    var s := Play(wallet, s0, edits);
    JoinAllHolds(s0, s.members, keys);
    var only := JoinAll(s0.proposal, s.members, s0.roles);
    forall terms
      ensures Roster(s.proposal.programs, terms) == Roster(only.programs, terms)
    {
      assert RosterFor(s0, s.members, s.proposal, terms) && RosterFor(s0, s.members, only, terms);
    }
    forall e | |e| > 4
      ensures e in s.proposal.programs <==> e in only.programs
    {
      InRoster(s.proposal.programs, e);
      InRoster(only.programs, e);
    }
  }

  /* ---- One member, in and out ---- */

  lemma AddProgramStep(programs: seq<ProgramEntry>, terms: ProgramEntry, pub: string)
    requires programs != []
    ensures var added, rest := AddProgram(programs, terms, pub), AddProgram(programs[1..], terms, pub);
            if SameTerms(programs[0], terms) then added == [programs[0] + [pub]] + programs[1..]
            else added == [programs[0]] + rest
  {
    if SameTerms(programs[0], terms) {
      assert GetProgramIdx(programs, terms) == Some(0);
    }
  }

  /** Removing a key that an entry does not mention, or mentions last. */
  lemma RemoveAppended(e: ProgramEntry, pub: string)
    requires pub !in e
    ensures RemoveFirst(e, pub) == e && RemoveFirst(e + [pub], pub) == e
    ensures pub in e + [pub] && Outlives(pub)(e)
  {
    RemoveFirstSkips(e, [], pub);
    RemoveFirstSkips(e, [pub], pub);
    assert e + [] == e && (e + [pub])[|e|] == pub;
  }

  lemma RemProgramsHead(e: ProgramEntry, rest: seq<ProgramEntry>, pub: string)
    ensures RemPrograms([e] + rest, pub) ==
        if Outlives(pub)(e)
        then [RemoveFirst(e, pub)] + RemPrograms(rest, pub)
        else RemPrograms(rest, pub)
  {
    var all := [e] + rest;
    assert all[0] == e && all[1..] == rest;
    RemProgramsStep(all, pub);
  }

  lemma {:induction false} RemUnmentioned(programs: seq<ProgramEntry>, pub: string)
    requires forall e | e in programs :: pub !in e
    ensures RemPrograms(programs, pub) == programs
  {
    if programs != [] {
      RemUnmentioned(programs[1..], pub);
      RemoveAppended(programs[0], pub);
      RemProgramsStep(programs, pub);
    }
  }

  /**
   A new entry is taken out whole when its terms are four; a found one survives unless it is
   then of five elements.
   */
  predicate Undoable(programs: seq<ProgramEntry>, terms: ProgramEntry) {
    match GetProgramIdx(programs, terms)
    case None => |terms| == 4
    case Some(i) => |programs[i]| != 4
  }

  lemma UndoableHead(e: ProgramEntry, rest: seq<ProgramEntry>, terms: ProgramEntry)
    requires !SameTerms(e, terms)
    ensures Undoable([e] + rest, terms) <==> Undoable(rest, terms)
  {
    var all := [e] + rest;
    assert all[0] == e && all[1..] == rest;
    match GetProgramIdx(rest, terms) {
      case None =>
      case Some(i) => assert all[i + 1] == rest[i];
    }
  }

  lemma SameHead<T>(x: T, a: seq<T>, b: seq<T>)
    ensures [x] + a == [x] + b <==> a == b
  {
    if [x] + a == [x] + b {
      assert a == ([x] + a)[1..] && b == ([x] + b)[1..];
    }
  }

  /**
   Leaving undoes joining a program, on any list of programs that does not mention the
   member, exactly when the terms are new and four, or the entry found for them is not of
   four elements. A draft's own entry of four elements is lost.
   */
  lemma {:induction false} UndoneIff(programs: seq<ProgramEntry>, terms: ProgramEntry, pub: string)
    requires pub !in terms && forall e | e in programs :: pub !in e
    ensures RemPrograms(AddProgram(programs, terms, pub), pub) == programs <==> Undoable(programs, terms)
  {
    RemUnmentioned(programs, pub);
    if programs == [] {
      RemoveAppended(terms, pub);
      RemProgramsHead(terms + [pub], [], pub);
      assert AddProgram([], terms, pub) == [terms + [pub]] + [];
    } else {
      var e, rest := programs[0], programs[1..];
      AddProgramStep(programs, terms, pub);
      RemoveAppended(e, pub);
      RemUnmentioned(rest, pub);
      assert programs == [e] + rest;
      if SameTerms(e, terms) {
        assert GetProgramIdx(programs, terms) == Some(0);
        RemProgramsHead(e + [pub], rest, pub);
        assert |e| == 4 ==> |RemPrograms(AddProgram(programs, terms, pub), pub)| == |rest|;
      } else {
        UndoneIff(rest, terms, pub);
        UndoableHead(e, rest, terms);
        RemProgramsHead(e, AddProgram(rest, terms, pub), pub);
        SameHead(e, RemPrograms(AddProgram(rest, terms, pub), pub), rest);
      }
    }
  }

  /** The entry a key's terms lead to does not mention the key. */
  ghost predicate FreeOf(programs: seq<ProgramEntry>, terms: ProgramEntry, pub: string) {
    forall e | e in programs && |e| >= 4 && e[..4] == terms :: pub !in e
  }

  lemma HeadAddedAndRemoved(e: ProgramEntry, rest: seq<ProgramEntry>, t: ProgramEntry, pub: string)
    requires |e| >= 4 && e[..4] == t && pub !in e && Absent(rest, t)
    ensures RemPrograms([e] + rest, pub) == [e] + RemPrograms(rest, pub)
    ensures t in [e] + rest <==> |e| == 4
    ensures RemPrograms([e + [pub]] + rest, pub) ==
        if |e| == 4
        then RemPrograms(rest, pub)
        else [e] + RemPrograms(rest, pub)
  {
    RemoveAppended(e, pub);
    RemProgramsHead(e, rest, pub);
    RemProgramsHead(e + [pub], rest, pub);
    assert |e| == 4 ==> e == t;
    assert t[..4] == t;
  }

  /** One program added and removed again, among entries that may mention the member. */
  lemma {:induction false} AddedAndRemoved(programs: seq<ProgramEntry>, t: ProgramEntry, pub: string)
    requires Keyed(programs) && |t| == 4 && pub !in t && FreeOf(programs, t, pub)
    ensures var after, before := RemPrograms(AddProgram(programs, t, pub), pub), RemPrograms(programs, pub);
            if t in programs then |after| < |before| else after == before
  {
    if programs == [] {
      RemoveAppended(t, pub);
      RemProgramsHead(t + [pub], [], pub);
      assert AddProgram([], t, pub) == [t + [pub]] + [];
    } else {
      var e, rest := programs[0], programs[1..];
      assert programs == [e] + rest;
      AddProgramStep(programs, t, pub);
      SameTermsIsKey(e, t);
      RemProgramsHead(e, rest, pub);
      if SameTerms(e, t) {
        HeadAddedAndRemoved(e, rest, t, pub);
      } else {
        assert t[..4] == t && FreeOf(rest, t, pub);
        AddedAndRemoved(rest, t, pub);
        RemProgramsHead(e, AddProgram(rest, t, pub), pub);
      }
    }
  }

  /** Adding to one entry leaves the entries with other terms alone. */
  lemma AddKeepsOthers(programs: seq<ProgramEntry>, t: ProgramEntry, pub: string, e: ProgramEntry)
    requires Keyed(programs) && |t| == 4 && |e| >= 4 && e[..4] != t
    ensures e in AddProgram(programs, t, pub) <==> e in programs
  {
    KeyedLengths(programs);
    forall x | x in programs
      ensures SameTerms(x, t) <==> x[..4] == t
    {
      SameTermsIsKey(x, t);
    }
    match GetProgramIdx(programs, t) {
      case None => assert (t + [pub])[..4] == t;
      case Some(i) =>
        assert (programs[i] + [pub])[..4] == programs[i][..4] == t;
        var next := AddProgram(programs, t, pub);
        if k: nat :| k < |programs| && programs[k] == e {
          assert next[k] == e;
        }
    }
  }

  lemma OtherTermsStay(programs: seq<ProgramEntry>, t: ProgramEntry, pub: string, other: ProgramEntry)
    requires Keyed(programs) && |t| == |other| == 4 && t != other && FreeOf(programs, other, pub)
    ensures var next := AddProgram(programs, t, pub);
            (other in next <==> other in programs) && FreeOf(next, other, pub)
  {
    assert other[..4] == other;
    forall e | |e| >= 4 && e[..4] == other
      ensures e in AddProgram(programs, t, pub) <==> e in programs
    {
      AddKeepsOthers(programs, t, pub, e);
    }
  }

  ghost predicate AllNew(programs: seq<ProgramEntry>, list: seq<ProgramEntry>) {
    forall t | t in list :: t !in programs
  }

  lemma NewHeadAndRest(programs: seq<ProgramEntry>, next: seq<ProgramEntry>, list: seq<ProgramEntry>)
    requires list != [] && forall other | other in list[1..] :: other in next <==> other in programs
    ensures AllNew(programs, list) <==> list[0] !in programs && AllNew(next, list[1..])
  {
    assert list == [list[0]] + list[1..];
  }

  lemma {:induction false} ProgramsAddedAndRemoved(programs: seq<ProgramEntry>, list: seq<ProgramEntry>, pub: string)
    requires Keyed(programs) && Clear(programs, {pub}) && PlainTerms(list, {pub})
    requires forall t | t in list :: FreeOf(programs, t, pub)
    ensures var after, before := RemPrograms(AddPrograms(programs, list, pub), pub), RemPrograms(programs, pub);
            if AllNew(programs, list) then after == before else |after| < |before|
    decreases |list|
  {
    if list != [] {
      var t, next := list[0], AddProgram(programs, list[0], pub);
      PlainHead(list, {pub});
      AddProgramKeyed(programs, t, pub, {pub});
      AddedAndRemoved(programs, t, pub);
      forall other | other in list[1..]
        ensures (other in next <==> other in programs) && FreeOf(next, other, pub)
      {
        assert other in list;
        OtherTermsStay(programs, t, pub, other);
      }
      ProgramsAddedAndRemoved(next, list[1..], pub);
      NewHeadAndRest(programs, next, list);
    }
  }

  /** The search for a member's payment, if the role has one, reaches its address among all payments. */
  predicate PaymentReached(wallet: Wallet, p: DraftProposal, policy: RolePolicy, pub: string) {
    NewPayments(policy, pub) != [] ==> Finds(wallet, |policy.paths|, |p.payments| + 1)
  }

  ghost predicate PathsReached(wallet: Wallet, p: DraftProposal, policy: RolePolicy) {
    AllFound(wallet, |policy.paths|, |p.paths| + |policy.paths|)
  }

  lemma {:induction false} NewPathAt(terms: seq<PathTemplate>, pub: string, next: nat, i: nat)
    requires i < |terms|
    ensures |NewPaths(terms, pub, next)| == |terms|
    ensures NewPaths(terms, pub, next)[i] == DraftPath(terms[i].path, terms[i].value, OfWallet(pub, next + i))
    decreases |terms|
  {
    if |terms| == 1 {
      assert NewPaths(terms[1..], pub, next + 1) == [];
    } else {
      NewPathAt(terms[1..], pub, next + 1, if i > 0 then i - 1 else 0);
    }
  }

  lemma OwnPathsFound(wallet: Wallet, terms: seq<PathTemplate>, pub: string, limit: nat)
    ensures Filter(NewPaths(terms, pub, 0), NotOwnPath(wallet, pub, limit)) == []
       <==> AllFound(wallet, |terms|, limit)
  {
    var own, keep := NewPaths(terms, pub, 0), NotOwnPath(wallet, pub, limit);
    forall i | 0 <= i < |terms|
      ensures |own| == |terms| && own[i].addr == OfWallet(pub, i)
    {
      NewPathAt(terms, pub, 0, i);
    }
    if i: nat :| i < |terms| && !Finds(wallet, i, limit) {
      assert keep(own[i]) && own[i] in Filter(own, keep);
    } else {
      FilterNone(own, keep);
    }
  }

  lemma PathsTakenOut(wallet: Wallet, paths: seq<DraftPath>, terms: seq<PathTemplate>, pub: string, limit: nat)
    requires forall e | e in paths :: e.addr.OfWallet? ==> e.addr.pub != pub
    ensures Filter(paths + NewPaths(terms, pub, 0), NotOwnPath(wallet, pub, limit)) == paths
        <==> AllFound(wallet, |terms|, limit)
  {
    FilterTail(paths, NewPaths(terms, pub, 0), NotOwnPath(wallet, pub, limit));
    OwnPathsFound(wallet, terms, pub, limit);
  }

  lemma {:induction false} NewPathsLength(terms: seq<PathTemplate>, pub: string, next: nat)
    ensures |NewPaths(terms, pub, next)| == |terms|
    decreases |terms|
  {
    if terms != [] {
      NewPathsLength(terms[1..], pub, next + 1);
    }
  }

  lemma PaymentTakenOut(wallet: Wallet, p: DraftProposal, policy: RolePolicy, pub: string)
    requires forall e | e in p.payments :: e.addr.OfWallet? ==> e.addr.pub != pub
    ensures var all := p.payments + NewPayments(policy, pub);
            Filter(all, NotOwnPayment(wallet, pub, |all|)) == p.payments <==> PaymentReached(wallet, p, policy, pub)
  {
    var own := NewPayments(policy, pub);
    var limit := |p.payments + own|;
    FilterTail(p.payments, own, NotOwnPayment(wallet, pub, limit));
    if own != [] {
      assert own[1..] == [];
      assert Filter(own, NotOwnPayment(wallet, pub, limit)) == if Finds(wallet, |policy.paths|, limit) then [] else own;
    }
  }

  /**
   A member who joins and leaves at once leaves the whole proposal as it was exactly when
   the role lists no entry that the draft holds without members, and the wallet's searches
   reach the addresses it made for the role. The payment's address comes after those of all
   the role's paths, but is searched for no further than there are payments.
   */
  lemma {:induction false} JoinThenLeaveIff(wallet: Wallet, p: DraftProposal, policy: RolePolicy, pub: string)
    requires Keyed(p.programs) && PlainTerms(policy.programs, {pub})
    requires forall e | e in p.programs :: pub !in e
    requires forall e | e in p.paths :: e.addr.OfWallet? ==> e.addr.pub != pub
    requires forall e | e in p.payments :: e.addr.OfWallet? ==> e.addr.pub != pub
    ensures RemMember(wallet, pub, AddMember(pub, policy, p)) == p
       <==> AllNew(p.programs, policy.programs) && PathsReached(wallet, p, policy)
            && PaymentReached(wallet, p, policy, pub)
  {
    PathsBack(wallet, p, policy, pub);
    PaymentTakenOut(wallet, p, policy, pub);
    ProgramsBack(p.programs, policy.programs, pub);
  }

  lemma PathsBack(wallet: Wallet, p: DraftProposal, policy: RolePolicy, pub: string)
    requires forall e | e in p.paths :: e.addr.OfWallet? ==> e.addr.pub != pub
    ensures RemMember(wallet, pub, AddMember(pub, policy, p)).paths == p.paths <==> PathsReached(wallet, p, policy)
  {
    var own, limit := NewPaths(policy.paths, pub, 0), |p.paths| + |policy.paths|;
    NewPathsLength(policy.paths, pub, 0);
    assert |p.paths + own| == limit;
    PathsTakenOut(wallet, p.paths, policy.paths, pub, limit);
    assert RemMember(wallet, pub, AddMember(pub, policy, p)).paths
        == Filter(p.paths + own, NotOwnPath(wallet, pub, limit));
  }

  lemma ProgramsBack(programs: seq<ProgramEntry>, list: seq<ProgramEntry>, pub: string)
    requires Keyed(programs) && PlainTerms(list, {pub}) && forall e | e in programs :: pub !in e
    ensures RemPrograms(AddPrograms(programs, list, pub), pub) == programs <==> AllNew(programs, list)
  {
    KeyedLengths(programs);
    RemUnmentioned(programs, pub);
    ProgramsAddedAndRemoved(programs, list, pub);
  }

  /* ---- Entries without members ---- */

  lemma AddGrows(programs: seq<ProgramEntry>, t: ProgramEntry, pub: string)
    requires Keyed(programs) && |t| == 4
    ensures t !in AddProgram(programs, t, pub)
  {
    AddProgramRoster(programs, t, pub, t);
    AddProgramKeyed(programs, t, pub, {});
    assert t[4..] == [] && t[..4] == t;
    if t in AddProgram(programs, t, pub) {
      RosterOf(AddProgram(programs, t, pub), t);
    }
  }

  lemma {:induction false} AddProgramsMemberless(
    programs: seq<ProgramEntry>, list: seq<ProgramEntry>, pub: string, e: ProgramEntry)
    requires Keyed(programs) && PlainTerms(list, {}) && |e| == 4
    ensures e in AddPrograms(programs, list, pub) <==> e in programs && e !in list
    decreases |list|
  {
    if list != [] {
      var t := list[0];
      PlainHead(list, {});
      KeyedLengths(programs);
      AddProgramKeyed(programs, t, pub, {});
      AddProgramsMemberless(AddProgram(programs, t, pub), list[1..], pub, e);
      if e == t {
        AddGrows(programs, t, pub);
      } else {
        assert e[..4] == e;
        AddKeepsOthers(programs, t, pub, e);
      }
    }
  }

  lemma {:induction false} RemProgramsMemberless(programs: seq<ProgramEntry>, pub: string, e: ProgramEntry)
    requires Removable(programs, pub) && |e| == 4 && pub !in e
    ensures e in RemPrograms(programs, pub) <==> e in programs
  {
    if programs != [] {
      var x := programs[0];
      RemProgramsMemberless(programs[1..], pub, e);
      RemProgramsHead(x, programs[1..], pub);
      assert programs == [x] + programs[1..];
      RemovedEntry(x, pub);
      if pub !in x {
        RemoveAppended(x, pub);
      } else if Outlives(pub)(x) {
        RemoveLength(x, pub);
      }
    }
  }

  lemma {:induction false} RemoveLength(e: ProgramEntry, pub: string)
    requires pub in e
    ensures |RemoveFirst(e, pub)| == |e| - 1
  {
    if e[0] != pub {
      RemoveLength(e[1..], pub);
    }
  }

  /** Some accepted join of these edits was for a role that lists the terms. */
  ghost predicate EverListed(wallet: Wallet, s: DraftSession, edits: seq<Edit>, terms: ProgramEntry)
    decreases |edits|
  {
    edits != [] && (ListsNow(s, edits[0], terms) || EverListed(wallet, Perform(wallet, s, edits[0]), edits[1..], terms))
  }

  predicate ListsNow(s: DraftSession, edit: Edit, terms: ProgramEntry) {
    edit.Join? && JoinSession(s, edit.pub, edit.pid).Success? && Lists(MemberData(edit.pub, edit.pid), s.roles, terms)
  }

  lemma PerformMemberless(
    wallet: Wallet, s0: DraftSession, s: DraftSession, edit: Edit, keys: set<string>, e: ProgramEntry)
    requires Fresh(s0, keys) && Accounts(s0, s, keys) && edit.pub in keys && |e| == 4 && ClearTerms(e, keys)
    ensures e in Perform(wallet, s, edit).proposal.programs <==> e in s.proposal.programs && !ListsNow(s, edit, e)
  {
    match edit {
      case Leave(pub) =>
        EntriesRemovable(s0, s.members, s.proposal, keys, pub);
        RemProgramsMemberless(s.proposal.programs, pub, e);
      case Join(pub, pid) =>
        if JoinSession(s, pub, pid).Success? {
          var policy := GetRolePolicy(s.roles, pid).value;
          assert PlainTerms(policy.programs, keys) && PlainTerms(policy.programs, {});
          AddProgramsMemberless(s.proposal.programs, policy.programs, pub, e);
        }
    }
  }

  lemma {:induction false} PlayMemberless(
    wallet: Wallet, s0: DraftSession, s: DraftSession, edits: seq<Edit>, keys: set<string>, e: ProgramEntry)
    requires LeavesReach(wallet, s, edits)
    requires Fresh(s0, keys) && Accounts(s0, s, keys) && |e| == 4 && ClearTerms(e, keys)
    requires forall x | x in edits :: x.pub in keys
    ensures e in Play(wallet, s, edits).proposal.programs
        <==> e in s.proposal.programs && !EverListed(wallet, s, edits, e)
    decreases |edits|
  {
    if edits != [] {
      assert edits[0] in edits;
      PerformMemberless(wallet, s0, s, edits[0], keys, e);
      PerformKeeps(wallet, s0, s, edits[0], keys);
      PlayMemberless(wallet, s0, Perform(wallet, s, edits[0]), edits[1..], keys, e);
    }
  }

  /**
   An entry without members is in the draft after any edits exactly when it was there at
   first and no role that lists it was ever joined, whether or not its members have left.
   */
  lemma {:induction false} MemberlessLostIff(
    wallet: Wallet, s0: DraftSession, edits: seq<Edit>, keys: set<string>, e: ProgramEntry)
    requires LeavesReach(wallet, s0, edits)
    requires Fresh(s0, keys) && (forall x | x in edits :: x.pub in keys) && |e| == 4 && ClearTerms(e, keys)
    ensures e in Play(wallet, s0, edits).proposal.programs
        <==> e in s0.proposal.programs && !EverListed(wallet, s0, edits, e)
  {
    FreshAccounts(s0, keys);
    PlayMemberless(wallet, s0, s0, edits, keys, e);
  }

  /* ---- Inputs for which leaving does not undo joining ---- */

  /** Three terms leave an entry of theirs behind. */
  lemma ShortTermsLinger(pub: string)
    requires pub !in ["claim", "spend", "*"]
    ensures RemPrograms(AddProgram([], ["claim", "spend", "*"], pub), pub) != []
  {
    UndoneIff([], ["claim", "spend", "*"], pub);
  }

  /** A draft's entry with terms and no members is lost. */
  lemma MemberlessEntryLost(pub: string)
    requires pub !in ["endorse", "close", "*", "2"]
    ensures var terms := ["endorse", "close", "*", "2"]; RemPrograms(AddProgram([terms], terms, pub), pub) != [terms]
  {
    var terms := ["endorse", "close", "*", "2"];
    assert SameTerms(terms, terms) && GetProgramIdx([terms], terms) == Some(0);
    UndoneIff([terms], terms, pub);
  }

  /**
   A role with one path and a payment, under a search that tries as many addresses as its limit
   says: the payment stays.
   */
  lemma PaymentLeftBehind(pub: string, policy: RolePolicy)
    requires |policy.paths| == 1 && policy.payment.Some? && policy.payment.value > 0.0 && policy.programs == []
    ensures var wallet, p := Wallet((i, limit) => i < limit), DraftProposal([], [], []);
            RemMember(wallet, pub, AddMember(pub, policy, p)) != p
  {
    JoinThenLeaveIff(Wallet((i, limit) => i < limit), DraftProposal([], [], []), policy, pub);
  }
}
