/**
 * Decimal text of integers as Python's f-strings print them, and the small
 * readers that recover the numbers from such text. The readers are the
 * reference against which the copied coordinates and the export file name are
 * shown to determine the numbers they carry.
 */
module Text {
  import opened Wrappers

  predicate IsDigit(c: char) {
    '0' <= c <= '9'
  }

  predicate AllDigits(s: string) {
    forall i :: 0 <= i < |s| ==> IsDigit(s[i])
  }

  function DigitChar(d: int): (c: char)
    requires 0 <= d < 10
    ensures IsDigit(c) && DigitValue(c) == d
  {
    (d + '0' as int) as char
  }

  function DigitValue(c: char): int
    requires IsDigit(c)
  {
    c as int - '0' as int
  }

  /** Decimal digits of n, most significant first, without leading zeros. */
  function NatToString(n: nat): (s: string)
    ensures 1 <= |s| && AllDigits(s)
    ensures s[0] == '0' ==> s == "0"
    decreases n
  {
    if n < 10 then [DigitChar(n)] else NatToString(n / 10) + [DigitChar(n % 10)]
  }

  /** Python's str on an int: a minus sign for negative values, then the digits. */
  function IntToString(i: int): (s: string)
    ensures 1 <= |s| && (!IsDigit(s[0]) ==> s[0] == '-')
    ensures 0 <= i ==> AllDigits(s)
    ensures i < 0 ==> 2 <= |s| && s[0] == '-' && AllDigits(s[1..]) && s[1] != '0'
  {
    if i < 0 then "-" + NatToString(-i) else NatToString(i)
  }

  /** The number a string of decimal digits denotes. */
  function DigitsValue(s: string): nat
    requires AllDigits(s)
  {
    if s == [] then 0 else DigitsValue(s[..|s| - 1]) * 10 + DigitValue(s[|s| - 1])
  }

  lemma {:induction false} DigitsValueOfNat(n: nat)
    ensures DigitsValue(NatToString(n)) == n
    decreases n
  {
    if n >= 10 {
      var s := NatToString(n);
      assert s[..|s| - 1] == NatToString(n / 10);
      DigitsValueOfNat(n / 10);
    }
  }

  /** Length of the run of digits at the front of s. */
  function LeadingDigits(s: string): (k: nat)
    ensures k <= |s| && AllDigits(s[..k])
    ensures k < |s| ==> !IsDigit(s[k])
  {
    if s == [] || !IsDigit(s[0]) then 0 else 1 + LeadingDigits(s[1..])
  }

  lemma {:induction false} LeadingDigitsOfConcat(d: string, rest: string)
    requires AllDigits(d)
    requires rest == [] || !IsDigit(rest[0])
    ensures LeadingDigits(d + rest) == |d|
    decreases |d|
  {
    if d != [] {
      assert (d + rest)[1..] == d[1..] + rest;
      LeadingDigitsOfConcat(d[1..], rest);
    }
  }

  /** Reads a non-empty run of digits without a leading zero (other than "0" itself) from the front of s. */
  function ReadNat(s: string): (r: Option<(int, string)>)
    ensures r.Some? ==> 0 <= r.value.0
  {
    var k := LeadingDigits(s);
    if k == 0 || (1 < k && s[0] == '0') then None else Some((DigitsValue(s[..k]), s[k..]))
  }

  /** Reads an optionally negative decimal integer from the front of s; "-0" is refused, as str never prints it. */
  function ReadInt(s: string): Option<(int, string)> {
    if 0 < |s| && s[0] == '-' then
      match ReadNat(s[1..])
      case None => None
      case Some((n, rest)) => if n == 0 then None else Some((-n, rest))
    else
      ReadNat(s)
  }

  /** Consumes the literal lit from the front of s. */
  function Expect(lit: string, s: string): Option<string> {
    if lit <= s then Some(s[|lit|..]) else None
  }

  /** Reads an integer followed by the literal lit. */
  function ReadIntThen(s: string, lit: string): Option<(int, string)> {
    var (i, rest) :- ReadInt(s);
    var after :- Expect(lit, rest);
    Some((i, after))
  }

  lemma ReadNatOfString(n: nat, rest: string)
    requires rest == [] || !IsDigit(rest[0])
    ensures ReadNat(NatToString(n) + rest) == Some((n, rest))
  {
    var d := NatToString(n);
    LeadingDigitsOfConcat(d, rest);
    assert (d + rest)[..|d|] == d;
    assert (d + rest)[|d|..] == rest;
    DigitsValueOfNat(n);
  }

  /** Reading back the printed form of any integer gives that integer and the untouched rest. */
  lemma ReadIntOfString(i: int, rest: string)
    requires rest == [] || !IsDigit(rest[0])
    ensures ReadInt(IntToString(i) + rest) == Some((i, rest))
  {
    var s := IntToString(i) + rest;
    if i < 0 {
      assert s == "-" + (NatToString(-i) + rest);
      assert s[1..] == NatToString(-i) + rest;
      ReadNatOfString(-i, rest);
    } else {
      assert s == NatToString(i) + rest;
      assert IsDigit(s[0]);
      ReadNatOfString(i, rest);
    }
  }

  lemma ReadIntThenOfString(i: int, lit: string, rest: string)
    requires 0 < |lit| && !IsDigit(lit[0])
    ensures ReadIntThen(IntToString(i) + lit + rest, lit) == Some((i, rest))
  {
    assert IntToString(i) + lit + rest == IntToString(i) + (lit + rest);
    ReadIntOfString(i, lit + rest);
    assert lit <= lit + rest;
    assert (lit + rest)[|lit|..] == rest;
  }

  /** Splits s at the first occurrence of c. */
  function SplitAtFirst(s: string, c: char): (r: Option<(string, string)>)
    ensures r.Some? ==> c !in r.value.0 && s == r.value.0 + [c] + r.value.1
  {
    if s == [] then None
    else if s[0] == c then Some(([], s[1..]))
    else
      var (head, tail) :- SplitAtFirst(s[1..], c);
      Some(([s[0]] + head, tail))
  }

  lemma {:induction false} SplitAtFirstOfConcat(a: string, c: char, b: string)
    requires c !in a
    ensures SplitAtFirst(a + [c] + b, c) == Some((a, b))
    decreases |a|
  {
    var s := a + [c] + b;
    if a != [] {
      assert s[1..] == a[1..] + [c] + b;
      SplitAtFirstOfConcat(a[1..], c, b);
      assert [s[0]] + a[1..] == a;
    } else {
      assert s[1..] == b;
    }
  }
}
