/** Decimal printing of integers as `std::to_string` does it, and the reading of such text. */
module Decimal {
  import opened Wrappers

  predicate IsDigit(c: char)
  {
    '0' <= c <= '9'
  }

  function Digit(d: nat): (c: char)
    requires d < 10
    ensures IsDigit(c) && DigitValue(c) == d
  {
    '0' + d as char
  }

  function DigitValue(c: char): nat
    requires IsDigit(c)
  {
    c as int - '0' as int
  }

  function DigitsOf(n: nat): (s: string)
    ensures s != "" && forall c :: c in s ==> IsDigit(c)
  {
    if n < 10 then [Digit(n)] else DigitsOf(n / 10) + [Digit(n % 10)]
  }

  function ToDecimal(n: int): (s: string)
    ensures s != "" && forall c :: c in s ==> IsDigit(c) || c == '-'
  {
    if n < 0 then "-" + DigitsOf(-n) else DigitsOf(n)
  }

  function NatValue(s: string): nat
    requires forall c :: c in s ==> IsDigit(c)
  {
    if s == "" then 0 else 10 * NatValue(s[..|s| - 1]) + DigitValue(s[|s| - 1])
  }

  /** An optional minus sign and at least one digit. */
  function ParseInteger(s: string): Option<int>
  {
    var negative := s != "" && s[0] == '-';
    var digits := if negative then s[1..] else s;
    if digits == "" || exists c :: c in digits && !IsDigit(c) then None
    else
      var magnitude: int := NatValue(digits);
      Some(if negative then -magnitude else magnitude)
  }

  lemma {:induction false} NatRoundTrip(n: nat)
    ensures NatValue(DigitsOf(n)) == n
  {
    var s := DigitsOf(n);
    if n < 10 {
      assert s[..0] == "";
    } else {
      NatRoundTrip(n / 10);
      assert s[..|s| - 1] == DigitsOf(n / 10);
      assert s[|s| - 1] == Digit(n % 10);
    }
  }

  /** Only zero is printed with a leading zero. */
  lemma {:induction false} NoLeadingZero(n: nat)
    ensures DigitsOf(n)[0] == '0' <==> n == 0
  {
    if n >= 10 {
      NoLeadingZero(n / 10);
    }
  }

  lemma IntegerRoundTrip(n: int)
    ensures ParseInteger(ToDecimal(n)) == Some(n)
  {
    hide DigitsOf, NatValue, IsDigit;
    var magnitude := if n < 0 then -n else n;
    var digits := DigitsOf(magnitude);
    NatRoundTrip(magnitude);
    assert digits[0] in digits;
    assert digits[0] != '-' by {
      DigitIsNoSign(digits[0]);
    }
    if n < 0 {
      assert ("-" + digits)[1..] == digits;
    }
  }

  // The lenient reading of `std::stoll`.

  predicate IsBlank(c: char)
  {
    c == ' ' || '\t' <= c <= '\r'
  }

  function SkipBlanks(s: string): string
  {
    if s != "" && IsBlank(s[0]) then SkipBlanks(s[1..]) else s
  }

  function DigitPrefix(s: string): (r: string)
    ensures forall c :: c in r ==> IsDigit(c)
  {
    if s != "" && IsDigit(s[0]) then [s[0]] + DigitPrefix(s[1..]) else ""
  }

  /** Blanks, an optional sign and at least one digit; the rest is ignored, and 64 bits must suffice. */
  function Stoll(s: string): Option<int>
  {
    var t := SkipBlanks(s);
    var signed := t != "" && (t[0] == '-' || t[0] == '+');
    var digits := DigitPrefix(if signed then t[1..] else t);
    var magnitude: int := NatValue(digits);
    var value := if signed && t[0] == '-' then -magnitude else magnitude;
    if digits == "" || !(-INT64_LIMIT <= value < INT64_LIMIT) then None else Some(value)
  }

  lemma {:induction false} DigitsAreTheirPrefix(s: string)
    requires forall c :: c in s ==> IsDigit(c)
    ensures DigitPrefix(s) == s
  {
    if s != "" {
      assert s[0] in s;
      DigitsAreTheirPrefix(s[1..]);
    }
  }

  predicate StartsWithDigit(s: string)
  {
    s != "" && s[0] in {'0', '1', '2', '3', '4', '5', '6', '7', '8', '9'}
  }

  lemma {:induction false} BlanksAreSkipped(blanks: string, s: string)
    requires forall c :: c in blanks ==> c in {' ', '\t', '\n', '\U{000B}', '\U{000C}', '\r'}
    requires s != "" ==> s[0] !in {' ', '\t', '\n', '\U{000B}', '\U{000C}', '\r'}
    ensures SkipBlanks(blanks + s) == s
  {
    if blanks == "" {
      assert blanks + s == s;
    } else {
      assert blanks[0] in blanks && forall c :: c in blanks[1..] ==> c in blanks;
      assert (blanks + s)[1..] == blanks[1..] + s;
      BlanksAreSkipped(blanks[1..], s);
    }
  }

  lemma {:induction false} RestIsIgnored(digits: string, rest: string)
    requires (forall c :: c in digits ==> IsDigit(c)) && !StartsWithDigit(rest)
    ensures DigitPrefix(digits + rest) == digits
  {
    if digits == "" {
      assert digits + rest == rest;
    } else {
      assert digits[0] in digits;
      assert (digits + rest)[1..] == digits[1..] + rest;
      RestIsIgnored(digits[1..], rest);
    }
  }

  /** Blanks before, one sign, and anything after the digits: the digits decide, as far as 64 bits go. */
  lemma StollReadsDigits(blanks: string, sign: string, m: nat, rest: string)
    requires forall c :: c in blanks ==> c in {' ', '\t', '\n', '\U{000B}', '\U{000C}', '\r'}
    requires sign in {"", "+", "-"} && !StartsWithDigit(rest)
    ensures var magnitude: int := m;
      var n := if sign == "-" then -magnitude else magnitude;
      Stoll(blanks + (sign + (DigitsOf(m) + rest))) ==
      if -0x8000_0000_0000_0000 <= n < 0x8000_0000_0000_0000 then Some(n) else None
  {
    hide DigitsOf, NatValue, DigitPrefix, SkipBlanks, StartsWithDigit;
    var digits := DigitsOf(m);
    var body := sign + (digits + rest);
    assert digits[0] in digits;
    assert (digits + rest)[0] == digits[0];
    if sign == "" {
      assert body == digits + rest;
    } else {
      assert body[0] == sign[0] && body[1..] == digits + rest;
    }
    BlanksAreSkipped(blanks, body);
    RestIsIgnored(digits, rest);
    NatRoundTrip(m);
  }

  /** Text without a digit where one must be is refused. */
  lemma StollRefusesText(blanks: string, sign: string, rest: string)
    requires forall c :: c in blanks ==> c in {' ', '\t', '\n', '\U{000B}', '\U{000C}', '\r'}
    requires sign in {"", "+", "-"} && !StartsWithDigit(rest)
    requires sign == "" && rest != "" ==>
               rest[0] !in {' ', '\t', '\n', '\U{000B}', '\U{000C}', '\r', '+', '-'}
    ensures Stoll(blanks + (sign + rest)) == None
  {
    hide NatValue, SkipBlanks;
    var body := sign + rest;
    if sign == "" {
      assert body == rest;
    } else {
      assert body[0] == sign[0] && body[1..] == rest;
    }
    BlanksAreSkipped(blanks, body);
  }

  lemma StollRoundTrip(n: int)
    requires -INT64_LIMIT <= n < INT64_LIMIT
    ensures Stoll(ToDecimal(n)) == Some(n)
  {
    hide DigitsOf, NatValue, DigitPrefix;
    var magnitude := if n < 0 then -n else n;
    var digits := DigitsOf(magnitude);
    NatRoundTrip(magnitude);
    assert digits[0] in digits;
    DigitsAreTheirPrefix(digits);
    if n < 0 {
      assert ("-" + digits)[1..] == digits;
    }
  }

  lemma DigitIsNoSign(c: char)
    requires IsDigit(c)
    ensures c != '-'
  {
  }
}
