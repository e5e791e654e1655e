/**
 Proposals: the payments they promise, path by path, and the check that makes every path
 pay out the same amount.
 */
module Proposal {
  import opened Wrappers
  import M = Machine

  /** Amounts are reals: the schemas admit any number. */
  datatype PathEntry = PathEntry(path: string, value: real, addr: string)
  datatype PaymentEntry = PaymentEntry(value: real, addr: string)
  datatype TxOutput = TxOutput(value: real, addr: string)

  datatype ProposalData = ProposalData(
    deadline: int, duration: int, effective: Option<int>, engine: string, moderator: Option<string>,
    paths: seq<PathEntry>, payments: seq<PaymentEntry>, programs: seq<M.ProgramData>, schedule: seq<M.Task>,
    value: real)

  /**
   What is taken from the runtime and the transaction library: the order of the default
   sort, which compares printed entries, and the length of an encoded template.
   */
  datatype Encoder = Encoder(order: seq<PaymentEntry> -> seq<PaymentEntry>, size: seq<TxOutput> -> nat)

  ghost predicate Permutes(enc: Encoder) {
    forall s :: multiset(enc.order(s)) == multiset(s)
  }

  function FilterPath(name: string, paths: seq<PathEntry>): seq<PathEntry> {
    if paths == [] then []
    else if paths[0].path == name then [paths[0]] + FilterPath(name, paths[1..])
    else FilterPath(name, paths[1..])
  }

  /* ---- Path names ---- */

  predicate LexLess(a: string, b: string) {
    b != [] && (a == [] || a[0] < b[0] || (a[0] == b[0] && LexLess(a[1..], b[1..])))
  }

  function InsertName(name: string, names: seq<string>): (r: seq<string>)
    ensures forall n :: n in r <==> n == name || n in names
  {
    if names == [] then [name]
    else if name == names[0] then names
    else if LexLess(name, names[0]) then [name] + names
    else [names[0]] + InsertName(name, names[1..])
  }

  /** The unique path names in ascending order. */
  function GetPathNames(paths: seq<PathEntry>): (names: seq<string>)
    ensures forall n :: n in names <==> exists e | e in paths :: e.path == n
  {
    if paths == [] then [] else InsertName(paths[0].path, GetPathNames(paths[1..]))
  }

  lemma {:induction false} LexTotal(a: string, b: string)
    ensures LexLess(a, b) || LexLess(b, a) || a == b
    ensures !(LexLess(a, b) && LexLess(b, a)) && !LexLess(a, a)
    decreases |a|
  {
    if a != [] {
      LexTotal(a[1..], a[1..]);
      if b != [] {
        LexTotal(a[1..], b[1..]);
        if a[1..] == b[1..] && a[0] == b[0] {
          assert a == [a[0]] + a[1..] && b == [b[0]] + b[1..];
        }
      }
    }
  }

  lemma {:induction false} LexTransitive(a: string, b: string, c: string)
    requires LexLess(a, b) && LexLess(b, c)
    ensures LexLess(a, c)
    decreases |a|
  {
    if a != [] && a[0] == b[0] && b[0] == c[0] {
      LexTransitive(a[1..], b[1..], c[1..]);
    }
  }

  ghost predicate Ascending(names: seq<string>) {
    forall i, j | 0 <= i < j < |names| :: LexLess(names[i], names[j])
  }

  lemma {:induction false} InsertAscending(name: string, names: seq<string>)
    requires Ascending(names)
    ensures Ascending(InsertName(name, names))
  {
    if names != [] && name != names[0] {
      LexTotal(name, names[0]);
      var r := InsertName(name, names[1..]);
      if LexLess(name, names[0]) {
        forall j | 0 < j < |names|
          ensures LexLess(name, names[j])
        {
          LexTransitive(name, names[0], names[j]);
        }
      } else {
        InsertAscending(name, names[1..]);
        forall j | 0 <= j < |r|
          ensures LexLess(names[0], r[j])
        {
          assert r[j] in r;
          if r[j] != name {
            var k :| 0 <= k < |names[1..]| && names[1..][k] == r[j];
            assert names[k + 1] == r[j];
          }
        }
      }
    }
  }

  /** Path names come out strictly ascending, so a machine made from them has distinct paths. */
  lemma {:induction false} PathNamesAscending(paths: seq<PathEntry>)
    ensures Ascending(GetPathNames(paths))
    ensures forall i, j | 0 <= i < j < |GetPathNames(paths)| :: GetPathNames(paths)[i] != GetPathNames(paths)[j]
  {
    if paths != [] {
      PathNamesAscending(paths[1..]);
      InsertAscending(paths[0].path, GetPathNames(paths[1..]));
    }
    forall i, j | 0 <= i < j < |GetPathNames(paths)|
      ensures GetPathNames(paths)[i] != GetPathNames(paths)[j]
    {
      LexTotal(GetPathNames(paths)[i], GetPathNames(paths)[j]);
    }
  }

  /* ---- Totals ---- */

  function GetPayTotal(payments: seq<PaymentEntry>): real {
    if payments == [] then 0.0 else payments[0].value + GetPayTotal(payments[1..])
  }

  lemma {:induction false} PayTotalConcat(a: seq<PaymentEntry>, b: seq<PaymentEntry>)
    ensures GetPayTotal(a + b) == GetPayTotal(a) + GetPayTotal(b)
  {
    if a == [] {
      assert a + b == b;
    } else {
      assert (a + b)[1..] == a[1..] + b;
      PayTotalConcat(a[1..], b);
    }
  }

  lemma TakeOut(s: seq<PaymentEntry>, i: nat)
    requires i < |s|
    ensures var rest := s[..i] + s[i + 1..];
            && multiset(rest) == multiset(s) - multiset{s[i]}
            && GetPayTotal(s) == s[i].value + GetPayTotal(rest)
  {
    assert s == s[..i] + ([s[i]] + s[i + 1..]);
    PayTotalConcat(s[..i], [s[i]] + s[i + 1..]);
    PayTotalConcat([s[i]], s[i + 1..]);
    PayTotalConcat(s[..i], s[i + 1..]);
    assert [s[i]][1..] == [];
  }

  lemma {:induction false} PayTotalPermutes(a: seq<PaymentEntry>, b: seq<PaymentEntry>)
    requires multiset(a) == multiset(b)
    ensures GetPayTotal(a) == GetPayTotal(b)
    decreases |a|
  {
    if a == [] {
      assert |multiset(b)| == |b|;
    } else {
      assert a[0] in multiset(b);
      var i :| 0 <= i < |b| && b[i] == a[0];
      TakeOut(a, 0);
      TakeOut(b, i);
      PayTotalPermutes(a[..0] + a[1..], b[..i] + b[i + 1..]);
    }
  }

  function PathValue(name: string, paths: seq<PathEntry>): real {
    GetPayTotal(AsPayments(FilterPath(name, paths)))
  }

  function AsPayments(paths: seq<PathEntry>): seq<PaymentEntry> {
    if paths == [] then [] else [PaymentEntry(paths[0].value, paths[0].addr)] + AsPayments(paths[1..])
  }

  /** The total of each path, in the order of the names. */
  method GetPathTotal(paths: seq<PathEntry>) returns (totals: seq<(string, real)>)
    ensures |totals| == |GetPathNames(paths)|
    ensures forall i | 0 <= i < |totals| ::
              totals[i] == (GetPathNames(paths)[i], PathValue(GetPathNames(paths)[i], paths))
  {
    totals := [];
    var names := GetPathNames(paths);
    for i := 0 to |names|
      invariant |totals| == i
      invariant forall k | 0 <= k < i :: totals[k] == (names[k], PathValue(names[k], paths))
    {
      var filtered := FilterPath(names[i], paths);
      var amt := 0.0;
      for j := 0 to |filtered|
        invariant amt + GetPayTotal(AsPayments(filtered[j..])) == PathValue(names[i], paths)
      {
        assert filtered[j..][1..] == filtered[j + 1..];
        amt := amt + filtered[j].value;
      }
      totals := totals + [(names[i], amt)];
    }
  }

  /** The payments check, address validity aside. */
  predicate CheckPayments(p: ProposalData) {
    var fees := GetPayTotal(p.payments);
    && fees <= p.value
    && forall name | name in GetPathNames(p.paths) :: PathValue(name, p.paths) + fees == p.value
  }

  /* ---- Outputs ---- */

  function ToOutputs(entries: seq<PaymentEntry>): seq<TxOutput> {
    if entries == [] then [] else [TxOutput(entries[0].value, entries[0].addr)] + ToOutputs(entries[1..])
  }

  /** The transaction outputs of one path: its own entries, then the payments. */
  function GetPathVouts(name: string, paths: seq<PathEntry>, payments: seq<PaymentEntry>, enc: Encoder): seq<TxOutput> {
    ToOutputs(enc.order(AsPayments(FilterPath(name, paths))) + enc.order(payments))
  }

  function OutputTotal(vouts: seq<TxOutput>): real {
    if vouts == [] then 0.0 else vouts[0].value + OutputTotal(vouts[1..])
  }

  lemma {:induction false} ToOutputsTotal(entries: seq<PaymentEntry>)
    ensures OutputTotal(ToOutputs(entries)) == GetPayTotal(entries)
  {
    if entries != [] {
      ToOutputsTotal(entries[1..]);
    }
  }

  /** In a proposal that passes the check, every path pays out exactly its value and the fees. */
  lemma {:induction false} PathPaysSubtotal(p: ProposalData, fees: seq<PaymentEntry>, name: string, enc: Encoder)
    requires CheckPayments(p) && Permutes(enc) && name in GetPathNames(p.paths)
    ensures OutputTotal(GetPathVouts(name, p.paths, p.payments + fees, enc)) == p.value + GetPayTotal(fees)
  {
    var own, payments := AsPayments(FilterPath(name, p.paths)), p.payments + fees;
    ToOutputsTotal(enc.order(own) + enc.order(payments));
    PayTotalConcat(enc.order(own), enc.order(payments));
    PayTotalPermutes(enc.order(own), own);
    PayTotalPermutes(enc.order(payments), payments);
    PayTotalConcat(p.payments, fees);
  }

  /** The check says of the outputs: the payments do not exceed the value, and every path pays out exactly the value. */
  lemma {:induction false} CheckPaymentsIff(p: ProposalData, enc: Encoder)
    requires Permutes(enc)
    ensures CheckPayments(p)
       <==> && GetPayTotal(p.payments) <= p.value
            && forall name | name in GetPathNames(p.paths) ::
                 OutputTotal(GetPathVouts(name, p.paths, p.payments, enc)) == p.value
  {
    forall name
      ensures OutputTotal(GetPathVouts(name, p.paths, p.payments, enc))
          == PathValue(name, p.paths) + GetPayTotal(p.payments)
    {
      var own := AsPayments(FilterPath(name, p.paths));
      ToOutputsTotal(enc.order(own) + enc.order(p.payments));
      PayTotalConcat(enc.order(own), enc.order(p.payments));
      PayTotalPermutes(enc.order(own), own);
      PayTotalPermutes(enc.order(p.payments), p.payments);
    }
  }

  /* ---- Whom a path pays ---- */

  /** As often as each entry of the path is listed, value and address, so often is it paid. */
  ghost predicate PaysPath(vouts: seq<TxOutput>, name: string, paths: seq<PathEntry>) {
    forall value: real, addr: string ::
      multiset(vouts)[TxOutput(value, addr)] == multiset(paths)[PathEntry(name, value, addr)]
  }

  ghost predicate PaysPayments(vouts: seq<TxOutput>, payments: seq<PaymentEntry>) {
    forall value: real, addr: string ::
      multiset(vouts)[TxOutput(value, addr)] == multiset(payments)[PaymentEntry(value, addr)]
  }

  /** The entries of the path first, then the payments, and nothing else. */
  ghost predicate PaysAsListed(vouts: seq<TxOutput>, name: string, paths: seq<PathEntry>, payments: seq<PaymentEntry>) {
    exists k | 0 <= k <= |vouts| :: PaysPath(vouts[..k], name, paths) && PaysPayments(vouts[k..], payments)
  }

  lemma {:induction false} FilterPathCount(name: string, paths: seq<PathEntry>, e: PathEntry)
    ensures multiset(FilterPath(name, paths))[e] == if e.path == name then multiset(paths)[e] else 0
  {
    if paths != [] {
      assert paths == [paths[0]] + paths[1..];
      FilterPathCount(name, paths[1..], e);
    }
  }

  lemma {:induction false} AsPaymentsCount(name: string, entries: seq<PathEntry>, value: real, addr: string)
    requires forall e | e in entries :: e.path == name
    ensures multiset(AsPayments(entries))[PaymentEntry(value, addr)] == multiset(entries)[PathEntry(name, value, addr)]
  {
    if entries != [] {
      assert entries == [entries[0]] + entries[1..];
      AsPaymentsCount(name, entries[1..], value, addr);
    }
  }

  lemma {:induction false} ToOutputsCount(entries: seq<PaymentEntry>, value: real, addr: string)
    ensures multiset(ToOutputs(entries))[TxOutput(value, addr)] == multiset(entries)[PaymentEntry(value, addr)]
  {
    if entries != [] {
      assert entries == [entries[0]] + entries[1..];
      ToOutputsCount(entries[1..], value, addr);
    }
  }

  lemma {:induction false} ToOutputsConcat(a: seq<PaymentEntry>, b: seq<PaymentEntry>)
    ensures |ToOutputs(a)| == |a|
    ensures ToOutputs(a + b) == ToOutputs(a) + ToOutputs(b)
  {
    if a == [] {
      assert a + b == b;
    } else {
      assert (a + b)[1..] == a[1..] + b;
      ToOutputsConcat(a[1..], b);
    }
  }

  lemma {:induction false} FilteredOnly(name: string, paths: seq<PathEntry>)
    ensures forall e | e in FilterPath(name, paths) :: e.path == name
  {
    if paths != [] {
      FilteredOnly(name, paths[1..]);
    }
  }

  /** The outputs of a path pay its own entries and the payments, each to its address, and nobody else. */
  lemma {:induction false} PathPaysAsListed(
    name: string, paths: seq<PathEntry>, payments: seq<PaymentEntry>, enc: Encoder)
    requires Permutes(enc)
    ensures PaysAsListed(GetPathVouts(name, paths, payments, enc), name, paths, payments)
  {
    var entries := FilterPath(name, paths);
    var own, paid := enc.order(AsPayments(entries)), enc.order(payments);
    ToOutputsConcat(own, paid);
    var vouts := GetPathVouts(name, paths, payments, enc);
    assert vouts[..|own|] == ToOutputs(own) && vouts[|own|..] == ToOutputs(paid);
    FilteredOnly(name, paths);
    forall value: real, addr: string
      ensures multiset(ToOutputs(own))[TxOutput(value, addr)] == multiset(paths)[PathEntry(name, value, addr)]
      ensures multiset(ToOutputs(paid))[TxOutput(value, addr)] == multiset(payments)[PaymentEntry(value, addr)]
    {
      ToOutputsCount(own, value, addr);
      AsPaymentsCount(name, entries, value, addr);
      FilterPathCount(name, paths, PathEntry(name, value, addr));
      ToOutputsCount(paid, value, addr);
    }
  }

  /** A path's value is the sum of its listed entries: one more entry adds its value to its own path only. */
  lemma PathValueAdds(name: string, e: PathEntry, paths: seq<PathEntry>)
    ensures PathValue(name, []) == 0.0
    ensures PathValue(name, [e] + paths) == PathValue(name, paths) + if e.path == name then e.value else 0.0
  {
    assert ([e] + paths)[0] == e && ([e] + paths)[1..] == paths;
    var rest := FilterPath(name, paths);
    if e.path == name {
      assert ([e] + rest)[1..] == rest;
      assert AsPayments([e] + rest) == [PaymentEntry(e.value, e.addr)] + AsPayments(rest);
      assert ([PaymentEntry(e.value, e.addr)] + AsPayments(rest))[1..] == AsPayments(rest);
    }
  }
}
