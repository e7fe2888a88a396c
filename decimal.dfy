/** Decimal digit strings: Go's `%d` formatting, `strconv.Atoi`, and the
    unsigned-integer decoding `encoding/json` applies to `,string` fields. */
module Decimal {
  import opened Wrappers

  predicate IsDigit(c: char) { '0' <= c <= '9' }

  predicate AllDigits(s: string) { forall i :: 0 <= i < |s| ==> IsDigit(s[i]) }

  function DigitValue(c: char): nat
    requires IsDigit(c)
  {
    c as int - '0' as int
  }

  function Digit(d: nat): (c: char)
    requires d < 10
    ensures IsDigit(c) && DigitValue(c) == d
  {
    ('0' as int + d) as char
  }

  /** The number a digit string denotes (the empty string denotes 0). */
  function Value(s: string): nat
    requires AllDigits(s)
  {
    if s == [] then 0 else Value(s[..|s| - 1]) * 10 + DigitValue(s[|s| - 1])
  }

  /** `%d` of a natural number: its shortest decimal rendering. */
  function Format(n: nat): (s: string)
    ensures s != [] && AllDigits(s)
    ensures Value(s) == n
    ensures s[0] == '0' ==> s == "0"
  {
    if n < 10 then [Digit(n)]
    else
      var s := Format(n / 10) + [Digit(n % 10)];
      assert s[..|s| - 1] == Format(n / 10);
      s
  }

  /** `%d` of a signed integer. */
  function FormatInt(i: int): (s: string)
    ensures s != []
    ensures i < 0 <==> s[0] == '-'
  {
    if i < 0 then "-" + Format(-i) else Format(i)
  }

  const Int64Min: int := -0x8000_0000_0000_0000
  const Int64Max: int := 0x7FFF_FFFF_FFFF_FFFF
  const Uint64Max: int := 0xFFFF_FFFF_FFFF_FFFF

  datatype NumError = SyntaxError | RangeError

  /** The length of the run of ASCII digits that starts `s`. */
  function DigitRun(s: string): (k: nat)
    ensures k <= |s| && AllDigits(s[..k])
    ensures k < |s| ==> !IsDigit(s[k])
  {
    if s == [] || !IsDigit(s[0]) then 0
    else
      var k := 1 + DigitRun(s[1..]);
      assert s[..k] == [s[0]] + s[1..][..k - 1];
      k
  }

  /** Go's `strconv.ParseUint` in base 10 for 64 bits: it reads the digits
      left to right and stops at the first of two events, a character that
      is not a digit (a syntax error) or a prefix whose value no longer fits
      64 unsigned bits (a range error). */
  function ParseUint(digits: string): (r: Result<nat, NumError>)
    ensures r.Success? <==> digits != [] && AllDigits(digits) && Value(digits) <= Uint64Max
    ensures r.Success? ==> r.value == Value(digits)
  {
    var k := DigitRun(digits);
    if digits == [] then Failure(SyntaxError)
    else if Value(digits[..k]) > Uint64Max then
      assert k == |digits| ==> digits[..k] == digits;
      Failure(RangeError)
    else if k < |digits| then Failure(SyntaxError)
    else
      assert digits[..k] == digits;
      Success(Value(digits))
  }

  /** Go's `strconv.Atoi` on a 64-bit platform: an optional sign is taken off
      and the rest goes through `ParseUint`; a magnitude that fits `uint64`
      but not `int` is a range error too. */
  function Atoi(s: string): (r: Result<int, NumError>)
    ensures r.Success? ==> Int64Min <= r.value <= Int64Max
    ensures r.Success? ==> s != [] && (IsDigit(s[0]) || s[0] == '-' || s[0] == '+')
    ensures s == [] ==> r == Failure(SyntaxError)
  {
    var signed := s != [] && (s[0] == '-' || s[0] == '+');
    var digits := if signed then s[1..] else s;
    match ParseUint(digits)
    case Failure(e) => Failure(e)
    case Success(u) =>
      var v: int := if s[0] == '-' then -(u as int) else u;
      if v < Int64Min || v > Int64Max then Failure(RangeError) else Success(v)
  }

  /** A longer digit string never denotes a smaller number. */
  lemma {:induction false} ValuePrefix(s: string, j: nat)
    requires AllDigits(s) && j <= |s|
    ensures Value(s[..j]) <= Value(s)
    decreases |s|
  {
    if j == |s| {
      assert s[..j] == s;
    } else {
      var t := s[..|s| - 1];
      assert s[..j] == t[..j];
      ValuePrefix(t, j);
      assert Value(s) == Value(t) * 10 + DigitValue(s[|s| - 1]);
    }
  }

  /** The digit run of `d + t` covers at least `d`, and exactly `d` when `t`
      starts with a non-digit. */
  lemma {:induction false} DigitRunOfAppend(d: string, t: string)
    requires AllDigits(d)
    ensures DigitRun(d + t) >= |d| && (d + t)[..|d|] == d
    ensures t == [] || !IsDigit(t[0]) ==> DigitRun(d + t) == |d|
    decreases |d|
  {
    if d == [] {
      assert d + t == t;
    } else {
      assert (d + t)[1..] == d[1..] + t;
      DigitRunOfAppend(d[1..], t);
    }
  }

  /** `Atoi` of a sign followed by `digits` is `ParseUint` of the digits,
      checked against the signed range. */
  lemma {:induction false} AtoiSign(sign: string, digits: string)
    requires sign == "" || sign == "-" || sign == "+"
    requires digits != [] && (sign == "" ==> digits[0] != '-' && digits[0] != '+')
    ensures ParseUint(digits).Failure? ==> Atoi(sign + digits) == Failure(ParseUint(digits).error)
  {
    var s := sign + digits;
    if sign != "" {
      assert s[0] == sign[0] && s[1..] == digits;
    } else {
      assert s == digits;
    }
  }

  /** `ParseUint` sees an overflowing run of digits before what follows. */
  lemma {:induction false} ParseUintOverflowFirst(d: string, t: string)
    requires AllDigits(d) && Value(d) > Uint64Max
    ensures ParseUint(d + t) == Failure(RangeError)
  {
    var digits := d + t;
    DigitRunOfAppend(d, t);
    var run := digits[..DigitRun(digits)];
    assert run[..|d|] == d;
    ValuePrefix(run, |d|);
  }

  /** A run of digits that overflows 64 unsigned bits is a range error,
      whatever follows it: the overflow is seen before the rest is read. */
  lemma {:induction false} AtoiOverflowFirst(sign: string, d: string, t: string)
    requires sign == "" || sign == "-" || sign == "+"
    requires AllDigits(d) && Value(d) > Uint64Max
    ensures Atoi(sign + d + t) == Failure(RangeError)
  {
    ParseUintOverflowFirst(d, t);
    assert d != [] && IsDigit(d[0]);
    AtoiSign(sign, d + t);
    assert sign + d + t == sign + (d + t);
  }

  /** `ParseUint` meets a stray character before any overflow. */
  lemma {:induction false} ParseUintStray(d: string, t: string)
    requires AllDigits(d) && Value(d) <= Uint64Max
    requires t != [] && !IsDigit(t[0])
    ensures ParseUint(d + t) == Failure(SyntaxError)
  {
    DigitRunOfAppend(d, t);
  }

  /** A non-digit after a run of digits that fits 64 unsigned bits is a
      syntax error, even when the whole string would overflow. */
  lemma {:induction false} AtoiStrayCharacter(sign: string, d: string, t: string)
    requires sign == "" || sign == "-" || sign == "+"
    requires d != [] && AllDigits(d) && Value(d) <= Uint64Max
    requires t != [] && !IsDigit(t[0])
    ensures Atoi(sign + d + t) == Failure(SyntaxError)
  {
    var digits := d + t;
    assert sign + d + t == sign + digits;
    ParseUintStray(d, t);
    assert digits[0] == d[0] && IsDigit(d[0]);
    AtoiSign(sign, digits);
  }

  /** Atoi reads back every `%d` rendering of an `int`. */
  lemma AtoiFormatInt(i: int)
    requires Int64Min <= i <= Int64Max
    ensures Atoi(FormatInt(i)) == Success(i)
  {
    if i < 0 {
      assert FormatInt(i)[1..] == Format(-i);
    }
  }
}
