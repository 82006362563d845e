/** The two conversions of Go's strconv package the handlers rely on:
    `Itoa` on a non-negative index and `ParseUint(s, 10, 64)`, including the
    value ParseUint hands back together with an error. */
module Strconv {
  import opened Protocols

  const MaxUint64: int := 0xFFFF_FFFF_FFFF_FFFF

  /** Go's uint64. */
  type uint64 = x: int | 0 <= x <= MaxUint64

  /** uint64 addition, which wraps around modulo 2^64. */
  function AddUint64(a: uint64, b: uint64): (r: uint64)
    ensures a + b <= MaxUint64 ==> r == a + b
    ensures a + b > MaxUint64 ==> r == a + b - (MaxUint64 + 1)
  {
    (a + b) % (MaxUint64 + 1)
  }

  predicate IsDigit(c: char) {
    '0' <= c <= '9'
  }

  predicate AllDigits(s: string) {
    forall i :: 0 <= i < |s| ==> IsDigit(s[i])
  }

  function DigitValue(c: char): (d: nat)
    requires IsDigit(c)
    ensures d < 10
  {
    c as int - '0' as int
  }

  function DigitChar(d: nat): (c: char)
    requires d < 10
    ensures IsDigit(c) && DigitValue(c) == d
  {
    ('0' as int + d) as char
  }

  /** The number a string of decimal digits denotes, most significant digit first. */
  function DecimalValue(s: string): (v: nat)
    requires AllDigits(s)
  {
    if s == [] then 0 else DecimalValue(s[..|s| - 1]) * 10 + DigitValue(s[|s| - 1])
  }

  /** strconv.Itoa on a non-negative int: the canonical decimal spelling. */
  function Itoa(n: nat): (s: string)
    ensures |s| > 0 && AllDigits(s) && DecimalValue(s) == n
    ensures |s| > 1 ==> s[0] != '0'
  {
    if n < 10 then [DigitChar(n)]
    else
      var init := Itoa(n / 10);
      var s := init + [DigitChar(n % 10)];
      assert s[..|s| - 1] == init;
      s
  }

  /** Why ParseUint rejected its input. */
  datatype NumError = ErrSyntax | ErrRange

  /** Both results of ParseUint: the value and the error, if any. */
  datatype NumParse = NumParse(value: uint64, err: Option<NumError>)

  /** The smallest n for which n * 10 no longer fits in a uint64. */
  const Cutoff: int := MaxUint64 / 10 + 1

  /** strconv.ParseUint(s, 10, 64). An empty string or any character that is
      not a decimal digit is a syntax error with value 0; a digit that makes the
      value overflow is a range error with value MaxUint64, reported as soon as
      it is met, before any later character is looked at. */
  function ParseUint(s: string): (p: NumParse) {
    if s == "" then NumParse(0, Some(ErrSyntax)) else Accumulate(s, 0, 0)
  }

  /** The digit loop of ParseUint, from position `i` with value `n` so far. */
  function Accumulate(s: string, i: nat, n: uint64): (p: NumParse)
    requires i <= |s|
    decreases |s| - i
  {
    if i == |s| then NumParse(n, None)
    else if !IsDigit(s[i]) then NumParse(0, Some(ErrSyntax))
    else if n >= Cutoff then NumParse(MaxUint64, Some(ErrRange))
    else if n * 10 + DigitValue(s[i]) > MaxUint64 then NumParse(MaxUint64, Some(ErrRange))
    else Accumulate(s, i + 1, n * 10 + DigitValue(s[i]))
  }

  /** The length of the longest prefix of `s` made of digits only. */
  function DigitRun(s: string): (k: nat)
    ensures k <= |s| && AllDigits(s[..k])
    ensures k < |s| ==> !IsDigit(s[k])
  {
    if s == [] || !IsDigit(s[0]) then 0
    else
      var k := 1 + DigitRun(s[1..]);
      assert s[..k] == [s[0]] + s[1..][..k - 1];
      k
  }

  lemma {:induction false} DecimalValueSnoc(s: string, i: nat)
    requires i < |s| && AllDigits(s[..i + 1])
    ensures AllDigits(s[..i])
    ensures DecimalValue(s[..i + 1]) == DecimalValue(s[..i]) * 10 + DigitValue(s[i])
  {
    assert s[..i + 1][..i] == s[..i];
  }

  /** A longer digit prefix never denotes a smaller number. */
  lemma {:induction false} DecimalValueMonotone(s: string, i: nat, j: nat)
    requires i <= j <= |s| && AllDigits(s[..j])
    ensures AllDigits(s[..i])
    ensures DecimalValue(s[..i]) <= DecimalValue(s[..j])
  {
    if i < j {
      DecimalValueSnoc(s, j - 1);
      DecimalValueMonotone(s, i, j - 1);
    }
  }

  lemma {:induction false} AccumulateCases(s: string, i: nat, n: uint64)
    requires i <= DigitRun(s)
    requires AllDigits(s[..i]) && n == DecimalValue(s[..i])
    ensures var k := DigitRun(s);
      Accumulate(s, i, n) ==
        if DecimalValue(s[..k]) > MaxUint64 then NumParse(MaxUint64, Some(ErrRange))
        else if k < |s| then NumParse(0, Some(ErrSyntax))
        else NumParse(DecimalValue(s[..k]), None)
    decreases |s| - i
  {
    var k := DigitRun(s);
    if i == k {
      // nothing left to read, or a non-digit comes next
    } else {
      assert s[..i + 1] == s[..k][..i + 1];
      DecimalValueSnoc(s, i);
      DecimalValueMonotone(s, i + 1, k);
      if n < Cutoff && n * 10 + DigitValue(s[i]) <= MaxUint64 {
        AccumulateCases(s, i + 1, n * 10 + DigitValue(s[i]));
      }
    }
  }

  /** ParseUint in full: which inputs it accepts, and what it returns otherwise. */
  lemma ParseUintCases(s: string)
    ensures var p := ParseUint(s);
      var k := DigitRun(s);
      if s == "" then p == NumParse(0, Some(ErrSyntax))
      else if DecimalValue(s[..k]) > MaxUint64 then p == NumParse(MaxUint64, Some(ErrRange))
      else if k < |s| then p == NumParse(0, Some(ErrSyntax))
      else p == NumParse(DecimalValue(s[..k]), None)
  {
    if s != "" {
      assert s[..0] == [];
      AccumulateCases(s, 0, 0);
      assert s[..|s|] == s;
    }
  }

  /** ParseUint succeeds exactly on non-empty digit strings whose value fits a
      uint64, and then yields that value. */
  lemma ParseUintAccepts(s: string)
    ensures ParseUint(s).err.None? <==> s != "" && AllDigits(s) && DecimalValue(s) <= MaxUint64
    ensures ParseUint(s).err.None? ==> ParseUint(s).value == DecimalValue(s)
  {
    ParseUintCases(s);
    var k := DigitRun(s);
    if AllDigits(s) {
      assert k == |s|;
    }
    assert s[..|s|] == s;
  }

  /** Parsing the decimal spelling of any uint64 gives it back. */
  lemma ParseUintItoa(n: uint64)
    ensures ParseUint(Itoa(n)) == NumParse(n, None)
  {
    ParseUintAccepts(Itoa(n));
  }
}
