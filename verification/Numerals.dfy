/** Decimal and hexadecimal numerals, as Rust's `{}` and `{:x}` print them. */
module Numerals {

  function Digit(d: nat): char
    requires d < 10
  {
    '0' + d as char
  }

  predicate IsDigit(c: char) {
    '0' <= c <= '9'
  }

  function DigitValue(c: char): nat
    requires IsDigit(c)
  {
    c as int - '0' as int
  }

  function Decimal(n: nat): (s: string)
    ensures |s| > 0
  {
    if n < 10 then [Digit(n)] else Decimal(n / 10) + [Digit(n % 10)]
  }

  predicate AllDigits(s: string) {
    forall k :: 0 <= k < |s| ==> IsDigit(s[k])
  }

  /** The number a string of digits denotes. */
  function Value(s: string): nat
    requires AllDigits(s)
  {
    if s == "" then 0 else Value(s[..|s| - 1]) * 10 + DigitValue(s[|s| - 1])
  }

  lemma {:induction false} DecimalIsDigits(n: nat)
    ensures AllDigits(Decimal(n))
    decreases n
  {
    if n >= 10 {
      DecimalIsDigits(n / 10);
    }
  }

  lemma {:induction false} DecimalReadsBack(n: nat)
    ensures AllDigits(Decimal(n)) && Value(Decimal(n)) == n
    decreases n
  {
    DecimalIsDigits(n);
    if n < 10 {
      assert Decimal(n)[..0] == "";
    } else {
      DecimalReadsBack(n / 10);
      assert Decimal(n)[..|Decimal(n)| - 1] == Decimal(n / 10);
    }
  }

  function HexDigit(d: nat): char
    requires d < 16
  {
    if d < 10 then '0' + d as char else 'a' + (d - 10) as char
  }

  predicate IsHexDigit(c: char) {
    '0' <= c <= '9' || 'a' <= c <= 'f'
  }

  function HexValue(c: char): nat
    requires IsHexDigit(c)
  {
    if c <= '9' then c as int - '0' as int else c as int - 'a' as int + 10
  }

  function Hex(n: nat): (s: string)
    ensures |s| > 0
  {
    if n < 16 then [HexDigit(n)] else Hex(n / 16) + [HexDigit(n % 16)]
  }

  lemma {:induction false} HexIsDigits(n: nat)
    ensures forall k :: 0 <= k < |Hex(n)| ==> IsHexDigit(Hex(n)[k])
    decreases n
  {
    if n >= 16 {
      HexIsDigits(n / 16);
    }
  }

  /** Reads hexadecimal digits off the front of `s`, after digits worth `value`. */
  function ReadHexFrom(s: string, value: nat): (nat, nat) {
    if s == "" || !IsHexDigit(s[0]) then (value, 0)
    else
      var (v, n) := ReadHexFrom(s[1..], value * 16 + HexValue(s[0]));
      (v, n + 1)
  }

  function ReadHex(s: string): (nat, nat) {
    ReadHexFrom(s, 0)
  }

  /** `value` shifted past the digits of `n`, plus `n`. */
  function Shifted(value: nat, n: nat): nat {
    if n < 16 then value * 16 + n else Shifted(value, n / 16) * 16 + n % 16
  }

  lemma {:induction false} ShiftedZero(n: nat)
    ensures Shifted(0, n) == n
    decreases n
  {
    if n >= 16 {
      ShiftedZero(n / 16);
    }
  }

  lemma {:induction false} HexRead(n: nat, value: nat, rest: string)
    ensures var after := ReadHexFrom(rest, Shifted(value, n));
            ReadHexFrom(Hex(n) + rest, value) == (after.0, |Hex(n)| + after.1)
    decreases n
  {
    if n < 16 {
      assert (Hex(n) + rest)[1..] == rest;
    } else {
      var tail := [HexDigit(n % 16)] + rest;
      assert Hex(n) + rest == Hex(n / 16) + tail;
      HexRead(n / 16, value, tail);
      assert tail[1..] == rest;
    }
  }

  lemma HexReadsBack(n: nat, rest: string)
    requires rest != "" && !IsHexDigit(rest[0])
    ensures ReadHex(Hex(n) + rest) == (n, |Hex(n)|)
  {
    HexRead(n, 0, rest);
    ShiftedZero(n);
  }

  /** The digits in the order of their values. */
  lemma DigitsInOrder(d: nat)
    ensures d < 10 ==> Digit(d) == "0123456789"[d]
    ensures d < 16 ==> HexDigit(d) == "0123456789abcdef"[d]
  {
  }

  /** A numeral: some digits, and no zero in front of others. */
  predicate IsNumeral(s: string) {
    AllDigits(s) && s != "" && (s[0] == '0' ==> |s| == 1)
  }

  lemma {:induction false} DecimalIsNumeral(n: nat)
    ensures IsNumeral(Decimal(n)) && (Decimal(n)[0] == '0' ==> n == 0)
    decreases n
  {
    DecimalIsDigits(n);
    if n >= 10 {
      DecimalIsNumeral(n / 10);
    }
  }

  lemma ValuePush(a: string, c: char)
    requires AllDigits(a) && IsDigit(c)
    ensures AllDigits(a + [c]) && Value(a + [c]) == Value(a) * 10 + DigitValue(c)
  {
    assert (a + [c])[..|a|] == a;
  }

  /** `{}` prints the only numeral of a number. */
  lemma {:induction false} DecimalIsTheNumeral(s: string)
    requires IsNumeral(s)
    ensures Decimal(Value(s)) == s && (s[0] != '0' ==> Value(s) > 0)
    decreases |s|
  {
    var front, last := s[..|s| - 1], s[|s| - 1];
    assert s == front + [last];
    ValuePush(front, last);
    if front != "" {
      DecimalIsTheNumeral(front);
      assert Value(s) / 10 == Value(front) && Value(s) % 10 == DigitValue(last);
    }
  }
}
