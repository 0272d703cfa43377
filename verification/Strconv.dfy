/** Decimal text, as strconv.FormatInt, ParseInt and Atoi treat it (a Go int is taken to have 64 bits). */
module Strconv {
  import opened Basics

  const MAX_INT64: int := 0x7FFF_FFFF_FFFF_FFFF
  const MIN_INT64: int := -0x8000_0000_0000_0000

  type Int64 = x: int | MIN_INT64 <= x <= MAX_INT64

  predicate IsDigit(c: char) {
    '0' <= c <= '9'
  }

  ghost predicate Digits(s: string) {
    s != [] && forall i :: 0 <= i < |s| ==> IsDigit(s[i])
  }

  predicate AllDigits(s: string)
    ensures AllDigits(s) <==> forall i :: 0 <= i < |s| ==> IsDigit(s[i])
  {
    if s == "" then true else AllDigits(s[..|s| - 1]) && IsDigit(s[|s| - 1])
  }

  function Digit(n: nat): char
    requires n < 10
  {
    '0' + (n as char)
  }

  function DigitValue(c: char): nat
    requires IsDigit(c)
  {
    c as nat - '0' as nat
  }

  function Value(s: string): nat
    requires forall i :: 0 <= i < |s| ==> IsDigit(s[i])
  {
    if s == "" then 0 else 10 * Value(s[..|s| - 1]) + DigitValue(s[|s| - 1])
  }

  function FormatNat(n: nat): string {
    if n < 10 then [Digit(n)] else FormatNat(n / 10) + [Digit(n % 10)]
  }

  function FormatInt(n: int): string {
    if n < 0 then "-" + FormatNat(-n) else FormatNat(n)
  }

  /** strconv.ParseInt(s, 10, 64): an optional sign, at least one digit, and the range of int64. */
  function ParseInt(s: string): Option<Int64> {
    var unsigned := if s != "" && (s[0] == '+' || s[0] == '-') then s[1..] else s;
    if unsigned == "" || !AllDigits(unsigned) then None
    else
      var v: int := Value(unsigned);
      var n := if s[0] == '-' then -v else v;
      if MIN_INT64 <= n <= MAX_INT64 then Some(n) else None
  }

  lemma {:induction false} FormatNatDigits(n: nat)
    ensures Digits(FormatNat(n)) && Value(FormatNat(n)) == n
  {
    if n >= 10 {
      FormatNatDigits(n / 10);
      assert FormatNat(n)[..|FormatNat(n)| - 1] == FormatNat(n / 10);
    } else {
      assert FormatNat(n)[..0] == "";
    }
  }

  /** A number written by FormatInt is read back by ParseInt. */
  lemma FormatParseRoundTrip(n: Int64)
    ensures ParseInt(FormatInt(n)) == Some(n)
  {
    if n < 0 {
      var m: int := n;
      FormatNatDigits(-m);
      assert FormatInt(n)[1..] == FormatNat(-m);
    } else {
      FormatNatDigits(n);
      assert IsDigit(FormatNat(n)[0]);
    }
  }

  const DIGITS := "0123456789"

  lemma DigitIndex(c: char)
    requires IsDigit(c)
    ensures DIGITS[DigitValue(c)] == c
  {
  }

  function PowerOfTen(n: nat): nat {
    if n == 0 then 1 else 10 * PowerOfTen(n - 1)
  }

  /** Decimal place value: the first digit counts its value times a power of ten. */
  lemma {:induction false} FirstDigitWeighs(s: string)
    requires Digits(s)
    ensures Value(s) == DigitValue(s[0]) * PowerOfTen(|s| - 1) + Value(s[1..])
  {
    if |s| > 1 {
      var front, rest := s[..|s| - 1], s[1..];
      FirstDigitWeighs(front);
      assert rest[..|rest| - 1] == front[1..] && rest[|rest| - 1] == s[|s| - 1];
      TenTimes(DigitValue(s[0]), PowerOfTen(|front| - 1), Value(front[1..]));
    } else {
      assert s[..0] == "" && s[1..] == "";
    }
  }

  lemma TenTimes(d: nat, p: nat, v: nat)
    ensures 10 * (d * p + v) == d * (10 * p) + 10 * v
  {
  }

  /** `s` is `unsigned`, a run of digits, with an optional sign, and stands for `n`. */
  ghost predicate SignedText(s: string, unsigned: string, n: int) {
    Digits(unsigned) && ((s == unsigned && n == Value(unsigned)) || (s == "+" + unsigned && n == Value(unsigned))
                         || (s == "-" + unsigned && n == -(Value(unsigned) as int)))
  }

  /** ParseInt accepts exactly an optional sign and a digit run whose value is an int64. */
  lemma ParseIntAccepts(s: string, n: Int64)
    ensures ParseInt(s) == Some(n) <==> exists unsigned :: SignedText(s, unsigned, n)
  {
    var unsigned := if s != "" && (s[0] == '+' || s[0] == '-') then s[1..] else s;
    if ParseInt(s) == Some(n) {
      assert SignedText(s, unsigned, n);
    }
    if other :| SignedText(s, other, n) {
      assert IsDigit(other[0]);
      assert other == unsigned;
    }
  }
}
