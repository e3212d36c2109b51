/** Decimal printing and the two parsers that read it back: Go's strconv.Atoi and JavaScript's
    parseInt. */
module Decimal {
  import opened Prelude

  predicate IsDigit(ch: char) {
    '0' <= ch <= '9'
  }

  predicate AllDigits(s: string) {
    forall ch <- s :: IsDigit(ch)
  }

  function DigitOf(d: nat): char
    requires d < 10
  {
    '0' + d as char
  }

  function Digits(n: nat): (s: string)
    ensures s != [] && AllDigits(s)
  {
    if n < 10 then [DigitOf(n)] else Digits(n / 10) + [DigitOf(n % 10)]
  }

  /** strconv.Itoa, and String(n) for an integer. */
  function Print(n: int): (s: string)
    ensures s != [] && forall ch <- s :: IsDigit(ch) || ch == '-'
  {
    if n < 0 then "-" + Digits(-n) else Digits(n)
  }

  function Value(s: string): nat
    requires AllDigits(s)
  {
    if s == [] then 0
    else
      assert IsDigit(s[|s| - 1]);
      10 * Value(s[..|s| - 1]) + (s[|s| - 1] as int - '0' as int)
  }

  lemma {:induction false} ValueOfDigits(n: nat)
    ensures Value(Digits(n)) == n
  {
    if n >= 10 {
      ValueOfDigits(n / 10);
      assert Digits(n)[..|Digits(n)| - 1] == Digits(n / 10);
    }
  }

  /** strconv.Atoi on a 64-bit platform: an optional sign, then digits only, within range. */
  function Atoi(s: string): Result<int> {
    var signed := s != [] && (s[0] == '-' || s[0] == '+');
    var digits := if signed then s[1..] else s;
    if digits == [] || !AllDigits(digits) then Err
    else
      var v: int := if signed && s[0] == '-' then -(Value(digits) as int) else Value(digits);
      if -0x8000_0000_0000_0000 <= v < 0x8000_0000_0000_0000 then Ok(v) else Err
  }

  lemma AtoiOfPrint(n: int)
    requires -0x8000_0000_0000_0000 <= n < 0x8000_0000_0000_0000
    ensures Atoi(Print(n)) == Ok(n)
  {
    if n < 0 {
      ValueOfDigits(-n);
      assert Print(n)[1..] == Digits(-n);
    } else {
      ValueOfDigits(n);
      assert IsDigit(Print(n)[0]);
    }
  }

  function DigitPrefix(s: string): (n: nat)
    ensures n <= |s| && AllDigits(s[..n]) && (n < |s| ==> !IsDigit(s[n]))
  {
    if s == [] || !IsDigit(s[0]) then 0
    else
      var n := DigitPrefix(s[1..]);
      assert s[..n + 1] == [s[0]] + s[1..][..n];
      n + 1
  }

  /** parseInt(s, 10): an optional sign, then the longest run of digits; Err where it gives NaN. */
  function ParseInt(s: string): Result<int> {
    var signed := s != [] && (s[0] == '-' || s[0] == '+');
    var digits := if signed then s[1..] else s;
    var n := DigitPrefix(digits);
    if n == 0 then Err
    else
      var v: int := if signed && s[0] == '-' then -(Value(digits[..n]) as int) else Value(digits[..n]);
      Ok(v)
  }

  lemma ParseIntOfDigits(n: nat)
    ensures ParseInt(Digits(n)) == Ok(n)
  {
    var s := Digits(n);
    assert IsDigit(s[0]);
    assert DigitPrefix(s) == |s| && s[..|s|] == s;
    ValueOfDigits(n);
  }

  lemma PrintInjective(m: int, n: int)
    requires Print(m) == Print(n)
    ensures m == n
  {
    PrintSign(m);
    PrintSign(n);
    if m < 0 {
      assert Print(m)[1..] == Digits(-m) && Print(n)[1..] == Digits(-n);
      ValueOfDigits(-m);
      ValueOfDigits(-n);
    } else {
      ValueOfDigits(m);
      ValueOfDigits(n);
    }
  }

  lemma PrintSign(n: int)
    ensures n < 0 <==> Print(n)[0] == '-'
  {
    assert n >= 0 ==> IsDigit(Digits(n)[0]);
  }
}
