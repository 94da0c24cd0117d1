/**
  Decimal text of integers, as Python's `'%s' % n` writes an `int`: an
  optional '-' followed by the digits, with no leading zero. The card
  descriptions embed a card's value or victory points this way; the parser
  below is the inverse used to state that the number can be read back.
 */
module Format {

  predicate IsDigit(c: char) {
    '0' <= c <= '9'
  }

  predicate AllDigits(s: string) {
    forall i :: 0 <= i < |s| ==> IsDigit(s[i])
  }

  function DigitChar(d: nat): (c: char)
    requires d < 10
    ensures IsDigit(c) && c as int - '0' as int == d
  {
    ('0' as int + d) as char
  }

  /** The canonical decimal digits of `n` (no leading zero, "0" for zero). */
  function NatToString(n: nat): (s: string)
    ensures |s| > 0 && AllDigits(s)
    ensures s[0] == '0' ==> n == 0 && s == "0"
    decreases n
  {
    if n < 10 then [DigitChar(n)] else NatToString(n / 10) + [DigitChar(n % 10)]
  }

  /** The number a string of digits denotes (most significant digit first). */
  function DigitsValue(s: string): nat
    requires AllDigits(s)
  {
    if s == [] then 0
    else DigitsValue(s[..|s| - 1]) * 10 + (s[|s| - 1] as int - '0' as int)
  }

  lemma {:induction false} NatToStringRoundTrip(n: nat)
    ensures DigitsValue(NatToString(n)) == n
    decreases n
  {
    if n >= 10 {
      NatToStringRoundTrip(n / 10);
      var s := NatToString(n);
      assert s[..|s| - 1] == NatToString(n / 10);
    }
  }

  /** Text that reads as an integer: digits, optionally after one '-'. */
  predicate IsIntText(s: string) {
    if |s| > 0 && s[0] == '-' then |s| > 1 && AllDigits(s[1..]) else |s| > 0 && AllDigits(s)
  }

  function IntValue(s: string): int
    requires IsIntText(s)
  {
    if s[0] == '-' then -(DigitsValue(s[1..]) as int) else DigitsValue(s)
  }

  /**
    The text `str` writes for an int: integer text with no leading zero,
    zero written "0" and never "-0".
   */
  predicate Canonical(s: string) {
    IsIntText(s) &&
    (s[0] == '0' ==> s == "0") &&
    (s[0] == '-' ==> s[1] != '0')
  }

  /** `str(i)` for a Python int. */
  function IntToString(i: int): (s: string)
    ensures IsIntText(s)
    ensures s[0] == '-' <==> i < 0
    ensures s[0] == '0' ==> i == 0 && s == "0"
    ensures s[0] == '-' ==> |s| > 1 && s[1] != '0'
    ensures Canonical(s)
  {
    if i < 0 then "-" + NatToString(-i) else NatToString(i)
  }

  lemma {:induction false} IntToStringRoundTrip(i: int)
    ensures IntValue(IntToString(i)) == i
  {
    if i < 0 {
      NatToStringRoundTrip(-i);
      assert IntToString(i)[1..] == NatToString(-i);
    } else {
      NatToStringRoundTrip(i);
    }
  }

  /** Digits that do not start with '0' denote a positive number. */
  lemma {:induction false} DigitsPositive(s: string)
    requires |s| > 0 && AllDigits(s) && s[0] != '0'
    ensures DigitsValue(s) > 0
    decreases |s|
  {
    if |s| > 1 {
      DigitsPositive(s[..|s| - 1]);
    }
  }

  /** Digits with no leading zero are exactly the text `NatToString` writes for their value. */
  lemma {:induction false} NatToStringUnique(s: string)
    requires |s| > 0 && AllDigits(s) && (s[0] == '0' ==> s == "0")
    ensures NatToString(DigitsValue(s)) == s
    decreases |s|
  {
    var p := s[..|s| - 1];
    var d := s[|s| - 1] as int - '0' as int;
    assert s == p + [s[|s| - 1]];
    if |s| == 1 {
      assert DigitsValue(s) == d;
    } else {
      NatToStringUnique(p);
      DigitsPositive(p);
      var v := DigitsValue(s);
      assert v == DigitsValue(p) * 10 + d;
      assert v / 10 == DigitsValue(p) && v % 10 == d;
    }
  }

  /**
    `IntToString` writes every integer in the one canonical way: any
    canonical integer text is the text of the integer it denotes.
   */
  lemma {:induction false} IntToStringUnique(s: string)
    requires Canonical(s)
    ensures IntToString(IntValue(s)) == s
  {
    if s[0] == '-' {
      var t := s[1..];
      DigitsPositive(t);
      NatToStringUnique(t);
      assert s == "-" + t;
    } else {
      NatToStringUnique(s);
    }
  }

  /** Distinct integers are written differently. */
  lemma IntToStringInjective(i: int, j: int)
    requires IntToString(i) == IntToString(j)
    ensures i == j
  {
    IntToStringRoundTrip(i);
    IntToStringRoundTrip(j);
  }
}
