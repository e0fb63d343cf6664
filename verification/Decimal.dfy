/** The decimal text of a machine integer: what `strconv.Itoa` writes into a
    registration's metadata and what `atoiSafe` reads back from it. */
module Decimal {
  import opened Wrappers

  const TWO_63 := 0x8000_0000_0000_0000
  const TWO_64 := 0x1_0000_0000_0000_0000

  /** A Go `int` on a 64-bit platform. */
  type Int64 = n: int | -TWO_63 <= n < TWO_63

  function DigitChar(d: nat): (c: char)
    requires d < 10
    ensures IsDigit(c) && DigitValue(c) == d
  {
    '0' + d as char
  }

  predicate IsDigit(c: char) {
    '0' <= c <= '9'
  }

  function DigitValue(c: char): (d: nat)
    requires IsDigit(c)
    ensures d < 10
  {
    (c - '0') as nat
  }

  /** The decimal digits of n, most significant first, without leading zeros. */
  function Digits(n: nat): string {
    if n < 10 then [DigitChar(n)] else Digits(n / 10) + [DigitChar(n % 10)]
  }

  function Itoa(n: Int64): string {
    if n < 0 then "-" + Digits(-(n as int)) else Digits(n)
  }

  predicate AllDigits(s: string) {
    forall i :: 0 <= i < |s| ==> IsDigit(s[i])
  }

  /** The number a string of digits denotes. */
  function Number(s: string): nat
    requires AllDigits(s)
  {
    if s == "" then 0 else 10 * Number(s[..|s| - 1]) + DigitValue(s[|s| - 1])
  }

  /** Base-ten parsing: an optional sign, at least one digit, nothing else, and a
      value that fits the machine integer. */
  function Atoi(s: string): Option<Int64> {
    var negative := s != "" && s[0] == '-';
    var signed := s != "" && (s[0] == '-' || s[0] == '+');
    var body := if signed then s[1..] else s;
    if body == "" || !AllDigits(body) then None
    else
      var n: int := if negative then -(Number(body) as int) else Number(body);
      if -TWO_63 <= n < TWO_63 then Some(n) else None
  }

  function AtoiSafe(s: string): Int64 {
    match Atoi(s)
    case Some(n) => n
    case None => 0
  }

  lemma {:induction false} NumberOfDigits(n: nat)
    ensures Digits(n) != "" && AllDigits(Digits(n)) && Number(Digits(n)) == n
  {
    if n < 10 {
      assert Number([]) == 0;
      assert Digits(n)[..0] == [];
    } else {
      NumberOfDigits(n / 10);
      var s := Digits(n);
      assert s[..|s| - 1] == Digits(n / 10);
      assert s[|s| - 1] == DigitChar(n % 10);
    }
  }

  lemma ParsePlain(n: nat)
    requires n < TWO_63
    ensures Atoi(Digits(n)) == Some(n)
  {
    NumberOfDigits(n);
    assert IsDigit(Digits(n)[0]);
  }

  lemma ParseNegative(m: nat)
    requires 0 < m <= TWO_63
    ensures Atoi("-" + Digits(m)) == Some(-(m as int))
  {
    NumberOfDigits(m);
    assert ("-" + Digits(m))[1..] == Digits(m);
  }

  /** What any text reads as: digits, with or without a sign, as their number where that
      fits, and everything else as nothing, which the tolerant reader takes for zero. */
  lemma ParsingLaws(d: string)
    requires d != "" && AllDigits(d)
    ensures Atoi(d) == if Number(d) < TWO_63 then Some(Number(d)) else None
    ensures Atoi("+" + d) == Atoi(d)
    ensures Atoi("-" + d) == if Number(d) <= TWO_63 then Some(-(Number(d) as int)) else None
    ensures forall s: string :: Atoi(s).None? ==> AtoiSafe(s) == 0
  {
    assert IsDigit(d[0]);
    assert ("+" + d)[1..] == d && ("-" + d)[1..] == d;
  }

  lemma MalformedIsZero(s: string)
    requires s == "" || s == "-" || s == "+"
             || (exists i :: 0 < i < |s| && !IsDigit(s[i])) || (s[0] != '-' && s[0] != '+' && !IsDigit(s[0]))
    ensures Atoi(s) == None && AtoiSafe(s) == 0
  {
    if i :| 0 < i < |s| && !IsDigit(s[i]) {
      assert s[1..][i - 1] == s[i];
    }
  }

  /** Reading a port back gives the port that was written, for every machine integer. */
  lemma PrintThenParse(n: Int64)
    ensures Atoi(Itoa(n)) == Some(n)
    ensures AtoiSafe(Itoa(n)) == n
  {
    if n < 0 {
      ParseNegative(-(n as int));
    } else {
      ParsePlain(n);
    }
  }
}
