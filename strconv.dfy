/**
 * The two decimal conversions the Hetzner actors rely on:
 * `strconv.ParseInt(s, 10, 64)` (firewall IDs arrive as strings) and the
 * `fmt.Sprintf("%v", id)` rendering of an int64 resource ID used as a
 * record's ValueID.
 */
module Strconv {
  import opened Wrappers
  import opened GoTypes

  const MaxUint64: int := 0xFFFF_FFFF_FFFF_FFFF
  const MaxInt64: int := 0x7FFF_FFFF_FFFF_FFFF
  const MinInt64: int := -0x8000_0000_0000_0000

  type int64 = x: int | MinInt64 <= x <= MaxInt64

  predicate IsDigit(c: char) { '0' <= c <= '9' }

  function DigitValue(c: char): (d: nat)
    requires IsDigit(c)
    ensures d < 10
  {
    (c as int) - ('0' as int)
  }

  function DigitChar(d: nat): (c: char)
    requires d < 10
    ensures IsDigit(c) && DigitValue(c) == d
  {
    (('0' as int) + d) as char
  }

  predicate AllDigits(s: string) { forall i :: 0 <= i < |s| ==> IsDigit(s[i]) }

  /** The number a string of decimal digits denotes, most significant digit first. */
  function DigitsValue(s: string): nat
    requires AllDigits(s)
  {
    if s == [] then 0 else DigitsValue(s[..|s| - 1]) * 10 + DigitValue(s[|s| - 1])
  }

  /** State of strconv.ParseUint's digit loop after a prefix of its input. */
  datatype Scan = SyntaxError | RangeError | Value(n: nat)

  /**
   * The digit loop of `strconv.ParseUint(s, 10, 64)`, left to right: a
   * character that is not a decimal digit is a syntax error, a running value
   * above MaxUint64 is a range error, and whichever comes first wins.
   */
  function ScanDigits(s: string): Scan
  {
    if s == [] then Value(0)
    else
      match ScanDigits(s[..|s| - 1])
      case Value(n) =>
        var c := s[|s| - 1];
        if !IsDigit(c) then SyntaxError
        else if n * 10 + DigitValue(c) > MaxUint64 then RangeError
        else Value(n * 10 + DigitValue(c))
      case stop => stop
  }

  /** `s` without its leading sign, if it has one. */
  function Unsigned(s: string): string
  {
    if |s| > 0 && (s[0] == '+' || s[0] == '-') then s[1..] else s
  }

  predicate IsNegative(s: string) { |s| > 0 && s[0] == '-' }

  /** The value of an optionally signed decimal literal. */
  function LiteralValue(s: string): int
    requires AllDigits(Unsigned(s))
  {
    if IsNegative(s) then -(DigitsValue(Unsigned(s)) as int) else DigitsValue(Unsigned(s))
  }

  /** What ParseInt(s, 10, 64) accepts: a sign, then one or more digits, denoting an int64. */
  predicate IsInt64Literal(s: string)
  {
    && |Unsigned(s)| > 0
    && AllDigits(Unsigned(s))
    && MinInt64 <= LiteralValue(s) <= MaxInt64
  }

  /**
   * `strconv.ParseInt(s, 10, 64)`: an empty string or an empty digit part is a
   * syntax error; a range error of the unsigned scan saturates to MaxUint64
   * and is then reported as a range error of ParseInt.
   */
  function ParseInt(s: string): (r: Result<int64, Error>)
    ensures r.Failure? ==> r.error.NumError? && r.error.fn == "ParseInt" && r.error.num == s
  {
    if s == "" then Failure(NumError("ParseInt", s, ErrSyntax))
    else
      var neg := s[0] == '-';
      var digits := Unsigned(s);
      var scan := if digits == "" then SyntaxError else ScanDigits(digits);
      if scan.SyntaxError? then Failure(NumError("ParseInt", s, ErrSyntax))
      else
        var un := if scan.Value? then scan.n else MaxUint64;
        if !neg && un >= 0x8000_0000_0000_0000 then Failure(NumError("ParseInt", s, ErrRange))
        else if neg && un > 0x8000_0000_0000_0000 then Failure(NumError("ParseInt", s, ErrRange))
        else Success(if neg then -un else un)
  }

  /** The decimal digits of `n` without sign or leading zeros. */
  function NatDigits(n: nat): string
  {
    if n < 10 then [DigitChar(n)] else NatDigits(n / 10) + [DigitChar(n % 10)]
  }

  /** `fmt.Sprintf("%v", x)` of an int64. */
  function FormatInt(x: int): string
  {
    if x < 0 then "-" + NatDigits(-x) else NatDigits(x)
  }

  lemma {:induction false} ScanDigitsCorrect(s: string)
    ensures ScanDigits(s).Value? <==> AllDigits(s) && DigitsValue(s) <= MaxUint64
    ensures ScanDigits(s).Value? ==> ScanDigits(s).n == DigitsValue(s)
    ensures AllDigits(s) && DigitsValue(s) > MaxUint64 ==> ScanDigits(s).RangeError?
  {
    if s != [] {
      var p := s[..|s| - 1];
      ScanDigitsCorrect(p);
      assert AllDigits(s) ==> AllDigits(p);
      assert AllDigits(s) <==> AllDigits(p) && IsDigit(s[|s| - 1]) by {
        if AllDigits(p) && IsDigit(s[|s| - 1]) {
          forall i | 0 <= i < |s| ensures IsDigit(s[i]) {
            if i < |s| - 1 { assert s[i] == p[i]; }
          }
        }
      }
    }
  }

  /** ParseInt accepts exactly the int64 literals, and returns their value. */
  lemma ParseIntCorrect(s: string)
    ensures ParseInt(s).Success? <==> IsInt64Literal(s)
    ensures ParseInt(s).Success? ==> ParseInt(s).value == LiteralValue(s)
  {
    var digits := Unsigned(s);
    ScanDigitsCorrect(digits);
  }

  /** A signed string of digits that does not fit in an int64 is a range error, never a syntax error. */
  lemma ParseIntOutOfRange(s: string)
    requires |Unsigned(s)| > 0 && AllDigits(Unsigned(s))
    requires LiteralValue(s) < MinInt64 || LiteralValue(s) > MaxInt64
    ensures ParseInt(s) == Failure(NumError("ParseInt", s, ErrRange))
  {
    ScanDigitsCorrect(Unsigned(s));
  }

  lemma {:induction false} NatDigitsCorrect(n: nat)
    ensures |NatDigits(n)| > 0 && AllDigits(NatDigits(n))
    ensures DigitsValue(NatDigits(n)) == n
  {
    if n >= 10 {
      NatDigitsCorrect(n / 10);
      var s := NatDigits(n);
      assert s[..|s| - 1] == NatDigits(n / 10);
    }
  }

  /** Rendering an int64 with %v and parsing it back with ParseInt gives the same ID. */
  lemma FormatParseRoundTrip(x: int64)
    ensures ParseInt(FormatInt(x)) == Success(x)
  {
    var s := FormatInt(x);
    var m: nat := if x < 0 then -(x as int) else x as int;
    var d := NatDigits(m);
    NatDigitsCorrect(m);
    assert IsDigit(d[0]);
    if x < 0 {
      assert s == "-" + d;
      assert Unsigned(s) == d && IsNegative(s);
    } else {
      assert s == d;
      assert Unsigned(s) == d && !IsNegative(s);
    }
    assert IsInt64Literal(s) && LiteralValue(s) == x;
    ParseIntCorrect(s);
  }
}
