/**
 Strings as the contract machine reads them: the `|` separated expressions that name
 actions and paths, the unanchored pattern test applied to them, and the vote labels.
 */
module Text {
  import opened Wrappers

  /** The pieces of `s` between occurrences of `c`, as String.split returns them. */
  function Split(s: string, c: char): (parts: seq<string>)
    ensures |parts| >= 1
    ensures c !in s ==> parts == [s]
    ensures forall p, x | p in parts && x in p :: x in s && x != c
  {
    if s == [] then [[]]
    else if s[0] == c then [[]] + Split(s[1..], c)
    else
      var rest := Split(s[1..], c);
      assert c !in s ==> [s[0]] + s[1..] == s;
      [[s[0]] + rest[0]] + rest[1..]
  }

  /** The string Split came from. */
  function Join(parts: seq<string>, c: char): string
    requires |parts| >= 1
  {
    if |parts| == 1 then parts[0] else parts[0] + [c] + Join(parts[1..], c)
  }

  lemma {:induction false} JoinSplit(s: string, c: char)
    ensures Join(Split(s, c), c) == s
  {
    if s == [] {
    } else {
      JoinSplit(s[1..], c);
      var rest := Split(s[1..], c);
      if s[0] == c {
        assert Split(s, c)[1..] == rest;
      } else {
        var parts := Split(s, c);
        assert parts[0] == [s[0]] + rest[0] && parts[1..] == rest[1..];
        if |rest| > 1 {
          Associative([s[0]], rest[0] + [c], Join(rest[1..], c));
          Associative([s[0]], rest[0], [c]);
        }
        assert Join(parts, c) == [s[0]] + Join(rest, c);
      }
    }
  }

  lemma {:induction false} SplitFirst(first: string, rest: string, c: char)
    requires c !in first
    ensures Split(first + [c] + rest, c) == [first] + Split(rest, c)
  {
    var s := first + [c] + rest;
    if first == [] {
      assert s[1..] == rest;
    } else {
      SplitFirst(first[1..], rest, c);
      assert s[1..] == first[1..] + [c] + rest;
      assert [first[0]] + first[1..] == first;
    }
  }

  /** `needle` occurs somewhere in `hay`. */
  predicate Contains(hay: string, needle: string) {
    exists i | 0 <= i <= |hay| :: needle <= hay[i..]
  }

  lemma ContainsSelf(s: string)
    ensures Contains(s, s)
  {
    assert s <= s[0..];
  }

  lemma ContainsTransitive(a: string, b: string, c: string)
    requires Contains(a, b) && Contains(b, c)
    ensures Contains(a, c)
  {
    var i :| 0 <= i <= |a| && b <= a[i..];
    var j :| 0 <= j <= |b| && c <= b[j..];
    assert a[i..][..|b|] == b;
    assert a[i + j..] == a[i..][j..];
    assert c <= a[i + j..];
  }

  /**
   The unanchored pattern test. A pattern written in label characters and `|` is an
   alternation of literal strings, and it matches when one of them occurs in the input.
   */
  predicate Regex(input: string, pattern: string) {
    pattern == "*" || exists alt | alt in Split(pattern, '|') :: Contains(input, alt)
  }

  /** Whatever matches a pattern still matches it inside a longer input. */
  lemma RegexWidens(longer: string, input: string, pattern: string)
    requires Contains(longer, input) && Regex(input, pattern)
    ensures Regex(longer, pattern)
  {
    if pattern != "*" {
      var alt :| alt in Split(pattern, '|') && Contains(input, alt);
      ContainsTransitive(longer, input, alt);
    }
  }

  function Filter<T(!new)>(s: seq<T>, keep: T -> bool): (r: seq<T>)
    ensures forall x :: x in r <==> x in s && keep(x)
    ensures |r| <= |s|
  {
    if s == [] then []
    else if keep(s[0]) then [s[0]] + Filter(s[1..], keep)
    else Filter(s[1..], keep)
  }

  lemma {:induction false} FilterAll<T(!new)>(s: seq<T>, keep: T -> bool)
    requires forall x | x in s :: keep(x)
    ensures Filter(s, keep) == s
  {
    if s != [] {
      FilterAll(s[1..], keep);
    }
  }

  lemma {:induction false} FilterNone<T(!new)>(s: seq<T>, keep: T -> bool)
    requires forall x | x in s :: !keep(x)
    ensures Filter(s, keep) == []
  {
    if s != [] {
      FilterNone(s[1..], keep);
    }
  }

  lemma {:induction false} FilterConcat<T(!new)>(a: seq<T>, b: seq<T>, keep: T -> bool)
    ensures Filter(a + b, keep) == Filter(a, keep) + Filter(b, keep)
  {
    if a == [] {
      assert a + b == b;
    } else {
      assert (a + b)[1..] == a[1..] + b;
      FilterConcat(a[1..], b, keep);
    }
  }

  /** Where everything in front is kept, only the front is left exactly when nothing else is kept. */
  lemma FilterTail<T(!new)>(a: seq<T>, b: seq<T>, keep: T -> bool)
    requires forall x | x in a :: keep(x)
    ensures Filter(a + b, keep) == a <==> Filter(b, keep) == []
  {
    FilterConcat(a, b, keep);
    FilterAll(a, keep);
    if Filter(b, keep) != [] {
      assert |a + Filter(b, keep)| > |a|;
    }
  }

  datatype AccessList = AccessList(wlist: seq<string>, blist: seq<string>)

  /** The labels an expression names, and those it leaves out. */
  function GetAccessList(expr: string, labels: seq<string>): AccessList {
    if expr == "*" then AccessList(labels, [])
    else if '|' in expr then
      var wlist := Split(expr, '|');
      AccessList(wlist, Filter(labels, e => e !in wlist))
    else AccessList([expr], Filter(labels, e => e != expr))
  }

  /** The check a proposal's expressions must pass: every alternative is a known label. */
  predicate CheckRegex(labels: seq<string>, expr: string) {
    expr == "*" ||
    var arr := if '|' in expr then Split(expr, '|') else [expr];
    forall name | name in arr :: name in labels
  }

  /** The check passes exactly the expressions whose access list names known labels only. */
  lemma CheckRegexIff(labels: seq<string>, expr: string)
    ensures CheckRegex(labels, expr) <==> forall l | l in GetAccessList(expr, labels).wlist :: l in labels
  {
  }

  /** No label occurs inside a different one. */
  ghost predicate SubstringFree(labels: seq<string>) {
    forall a, b | a in labels && b in labels && Contains(a, b) :: a == b
  }

  /**
   On a checked expression the pattern test used for statements and the access list used
   for tasks grant the same labels, and the two lists split the labels between them.
   */
  lemma {:induction false} ExpressionAgreement(expr: string, labels: seq<string>)
    requires CheckRegex(labels, expr) && SubstringFree(labels)
    ensures var list := GetAccessList(expr, labels);
            && (forall l | l in labels :: Regex(l, expr) <==> l in list.wlist)
            && (forall l :: l in labels <==> l in list.wlist || l in list.blist)
            && (forall l | l in list.wlist :: l !in list.blist)
  {
    forall l | l in labels
      ensures Regex(l, expr) <==> l in GetAccessList(expr, labels).wlist
    {
      ContainsSelf(l);
    }
  }

  /**
   One label that occurs inside another is enough to break the agreement: the pattern
   test then grants the longer label on an expression whose access list leaves it out.
   */
  lemma {:induction false} ExpressionDisagreement(long: string, short: string, labels: seq<string>)
    requires long in labels && short in labels && long != short && Contains(long, short)
    requires '|' !in short && short != "*"
    ensures CheckRegex(labels, short)
    ensures Regex(long, short) && long in GetAccessList(short, labels).blist
  {
    assert Split(short, '|') == [short];
    assert short in Split(short, '|');
  }

  /* ---- Hex strings ---- */

  predicate IsHexDigit(c: char) {
    '0' <= c <= '9' || 'a' <= c <= 'f' || 'A' <= c <= 'F'
  }

  predicate IsHex(s: string) {
    |s| % 2 == 0 && forall c | c in s :: IsHexDigit(c)
  }

  predicate IsHash(s: string) {
    IsHex(s) && |s| == 64
  }

  const HEX_DIGITS := "0123456789abcdef"

  type Byte = x: nat | x < 256

  /** Two digits for each byte, the high one first. */
  function HexOf(bytes: seq<Byte>): (s: string)
    ensures |s| == 2 * |bytes|
  {
    if bytes == [] then []
    else [HEX_DIGITS[bytes[0] / 16], HEX_DIGITS[bytes[0] % 16]] + HexOf(bytes[1..])
  }

  function LowerCase(c: char): char {
    if 'A' <= c <= 'Z' then (c as int + 32) as char else c
  }

  /** The same text, but for the case of letters. */
  predicate Spells(s: string, lower: string) {
    if s == [] || lower == [] then s == lower
    else LowerCase(s[0]) == lower[0] && Spells(s[1..], lower[1..])
  }

  function DigitValue(c: char): (n: int)
    requires IsHexDigit(c)
    ensures 0 <= n < 16 && HEX_DIGITS[n] == LowerCase(c)
  {
    assert HEX_DIGITS == ['0', '1', '2', '3', '4', '5', '6', '7', '8', '9', 'a', 'b', 'c', 'd', 'e', 'f'];
    if c <= '9' then c as int - '0' as int
    else if c <= 'F' then c as int - 'A' as int + 10
    else c as int - 'a' as int + 10
  }

  /** A string is hex exactly when it writes out some bytes, in letters of either case. */
  lemma {:induction false} IsHexIff(s: string)
    ensures IsHex(s) <==> exists bytes :: WritesOut(s, bytes)
  {
    if IsHex(s) {
      var bytes := BytesOf(s);
      assert WritesOut(s, bytes);
    }
    if bytes :| WritesOut(s, bytes) {
      DigitsOnly(s, bytes);
    }
  }

  predicate WritesOut(s: string, bytes: seq<Byte>) {
    Spells(s, HexOf(bytes))
  }

  lemma {:induction false} BytesOf(s: string) returns (bytes: seq<Byte>)
    requires IsHex(s)
    ensures Spells(s, HexOf(bytes))
    decreases |s|
  {
    bytes := [];
    if s != [] {
      assert s[0] in s && s[1] in s;
      var rest := BytesOf(s[2..]);
      var hi, lo := DigitValue(s[0]), DigitValue(s[1]);
      bytes := [16 * hi + lo] + rest;
      ByteWritten(hi, lo, rest);
      SpellsPair(s, HexOf(rest), HEX_DIGITS[hi], HEX_DIGITS[lo]);
    }
  }

  lemma SpellsPair(s: string, rest: string, a: char, b: char)
    requires |s| >= 2
    ensures Spells(s, [a, b] + rest) <==> LowerCase(s[0]) == a && LowerCase(s[1]) == b && Spells(s[2..], rest)
  {
    var all := [a, b] + rest;
    assert all[1..] == [b] + rest && all[1..][1..] == rest && s[1..][1..] == s[2..];
  }

  lemma ByteWritten(hi: int, lo: int, rest: seq<Byte>)
    requires 0 <= hi < 16 && 0 <= lo < 16
    ensures HexOf([16 * hi + lo] + rest) == [HEX_DIGITS[hi], HEX_DIGITS[lo]] + HexOf(rest)
  {
    var b := 16 * hi + lo;
    assert b / 16 == hi && b % 16 == lo;
    assert ([b] + rest)[1..] == rest;
  }

  lemma {:induction false} DigitsOnly(s: string, bytes: seq<Byte>)
    requires Spells(s, HexOf(bytes))
    ensures IsHex(s)
    decreases |s|
  {
    if bytes != [] {
      var hi, lo := HEX_DIGITS[bytes[0] / 16], HEX_DIGITS[bytes[0] % 16];
      SpellsPair(s, HexOf(bytes[1..]), hi, lo);
      DigitsOnly(s[2..], bytes[1..]);
      DigitWritten(s[0], bytes[0] / 16);
      DigitWritten(s[1], bytes[0] % 16);
      assert s == [s[0], s[1]] + s[2..];
    }
  }

  lemma DigitWritten(c: char, n: int)
    requires 0 <= n < 16 && HEX_DIGITS[n] == LowerCase(c)
    ensures IsHexDigit(c)
  {
  }

  /** String.slice(0, n), which stops at the end of a short string. */
  function Prefix(s: string, n: nat): string {
    if |s| <= n then s else s[..n]
  }
}
