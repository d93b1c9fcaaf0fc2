/** Shared value types. */
module Basics {
  datatype Option<+T> = None | Some(value: T)

  /** 1 when the condition holds: lets "exactly one of" be written as a sum. */
  function Bit(b: bool): (n: nat)
    ensures n <= 1 && (n == 1 <==> b)
  {
    if b then 1 else 0
  }
}

/** Decimal text of integers, as encoding/json writes and reads int64 and uint64 values. */
module Decimal {
  import opened Basics

  predicate IsDigit(c: char) {
    '0' <= c <= '9'
  }

  function DigitOf(c: char): nat
    requires IsDigit(c)
  {
    c as int - '0' as int
  }

  function CharOf(d: nat): char
    requires d < 10
  {
    ('0' as int + d) as char
  }

  function Digits(n: nat): (s: string)
    ensures |s| >= 1 && forall i :: 0 <= i < |s| ==> IsDigit(s[i])
    ensures |s| > 1 ==> s[0] != '0'
  {
    if n < 10 then [CharOf(n)] else Digits(n / 10) + [CharOf(n % 10)]
  }

  /** Reads a digit string; None when it is empty or holds another character. */
  function ParseNat(s: string): Option<nat> {
    if s == [] || !IsDigit(s[|s| - 1]) then None
    else
      var low := DigitOf(s[|s| - 1]);
      if |s| == 1 then Some(low)
      else match ParseNat(s[..|s| - 1])
        case None => None
        case Some(high) => Some(10 * high + low)
  }

  lemma {:induction false} ParseDigits(n: nat)
    ensures ParseNat(Digits(n)) == Some(n)
  {
    if n >= 10 {
      var s := Digits(n);
      assert s[..|s| - 1] == Digits(n / 10);
      ParseDigits(n / 10);
    }
  }

  function IntText(i: int): string {
    if i < 0 then "-" + Digits(-i) else Digits(i)
  }

  function ParseInt(s: string): Option<int> {
    var negative := s != [] && s[0] == '-';
    var n := ParseNat(if negative then s[1..] else s);
    if n.None? then None
    else
      var i: int := n.value;
      Some(if negative then -i else i)
  }

  predicate IsInt64(i: int) {
    -0x8000_0000_0000_0000 <= i < 0x8000_0000_0000_0000
  }

  predicate IsUint64(i: int) {
    0 <= i < 0x1_0000_0000_0000_0000
  }

  /** Reading JSON into a uint64: null leaves it at zero, a number that does not fit is an error. */
  function ReadNat(text: string): Option<nat> {
    if text == "null" then Some(0)
    else match ParseNat(text)
      case None => None
      case Some(n) => if IsUint64(n) then Some(n) else None
  }

  /** The same for an int64. */
  function ReadInt(text: string): Option<int> {
    if text == "null" then Some(0)
    else match ParseInt(text)
      case None => None
      case Some(i) => if IsInt64(i) then Some(i) else None
  }

  lemma ParseIntText(i: int)
    ensures ParseInt(IntText(i)) == Some(i)
  {
    var s := IntText(i);
    if i < 0 {
      ParseDigits(-i);
      assert s[0] == '-' && s[1..] == Digits(-i);
    } else {
      ParseDigits(i);
      assert IsDigit(s[0]) && s[0] != '-';
    }
  }

  /** The text of an integer reads back as that integer exactly when it fits. */
  lemma ReadText(i: int)
    ensures ReadInt(IntText(i)) == if IsInt64(i) then Some(i) else None
    ensures i >= 0 ==> ReadNat(Digits(i)) == if IsUint64(i) then Some(i) else None
  {
    ParseIntText(i);
    if i >= 0 {
      ParseDigits(i);
      assert IsDigit(Digits(i)[0]) && Digits(i) != "null";
    } else {
      assert IntText(i)[0] == '-' && IntText(i) != "null";
    }
  }
}
