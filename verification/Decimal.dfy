/** Decimal printing and reading of integers, as fmt's %d and strconv.Atoi do it. */
module Decimal {
  import opened Basics

  function DigitChar(d: nat): char
    requires d < 10
  {
    '0' + d as char
  }

  predicate IsDigit(c: char) {
    '0' <= c <= '9'
  }

  function DigitValue(c: char): (d: nat)
    requires IsDigit(c)
    ensures d < 10
  {
    (c - '0') as nat
  }

  function Print(n: nat): (s: string)
    ensures |s| > 0
    ensures forall c <- s :: IsDigit(c)
  {
    if n < 10 then [DigitChar(n)] else Print(n / 10) + [DigitChar(n % 10)]
  }

  function PrintInt(n: int): string {
    if n < 0 then "-" + Print(-n) else Print(n)
  }

  /** The value of a run of digits. */
  function Read(s: string): nat
    requires forall c <- s :: IsDigit(c)
    decreases |s|
  {
    if s == "" then 0 else Read(s[..|s| - 1]) * 10 + DigitValue(s[|s| - 1])
  }

  lemma {:induction false} ReadPrint(n: nat)
    ensures Read(Print(n)) == n
    decreases n
  {
    var s := Print(n);
    if n < 10 {
      assert s[..|s| - 1] == "";
    } else {
      ReadPrint(n / 10);
      assert s[..|s| - 1] == Print(n / 10);
    }
  }

  lemma PrintInjective(m: int, n: int)
    requires PrintInt(m) == PrintInt(n)
    ensures m == n
  {
    if m < 0 && n < 0 {
      assert PrintInt(m)[1..] == Print(-m) && PrintInt(n)[1..] == Print(-n);
      ReadPrint(-m); ReadPrint(-n);
    } else if m >= 0 && n >= 0 {
      ReadPrint(m); ReadPrint(n);
    } else {
      MinusMarksNegative(m); MinusMarksNegative(n);
    }
  }

  lemma MinusMarksNegative(n: int)
    ensures PrintInt(n)[0] == '-' <==> n < 0
  {
    if n >= 0 {
      assert Print(n)[0] in Print(n);
    }
  }

  const MAX_INT64: int := 0x7FFF_FFFF_FFFF_FFFF
  const MIN_INT64: int := -0x8000_0000_0000_0000

  /** strconv.Atoi on a 64-bit platform: an optional sign, at least one digit, and a value in range. */
  function Atoi(s: string): Option<int> {
    var negative := s != "" && s[0] == '-';
    var digits := if s != "" && (s[0] == '-' || s[0] == '+') then s[1..] else s;
    if digits == "" || exists c <- digits :: !IsDigit(c) then None
    else
      var v := if negative then -(Read(digits) as int) else Read(digits) as int;
      if MIN_INT64 <= v <= MAX_INT64 then Some(v) else None
  }

  lemma AtoiReadsPrint(n: int)
    requires MIN_INT64 <= n <= MAX_INT64
    ensures Atoi(PrintInt(n)) == Some(n)
    ensures n >= 0 ==> Atoi("+" + PrintInt(n)) == Some(n)
  {
    var digits := Print(if n < 0 then -n else n);
    ReadPrint(if n < 0 then -n else n);
    assert IsDigit(digits[0]);
    assert ("+" + digits)[1..] == digits;
    if n < 0 {
      assert PrintInt(n)[1..] == digits;
    }
  }

  /** The value a conversion to a 32-bit signed integer leaves. */
  function ToInt32(n: int): (r: int)
    ensures -0x8000_0000 <= r < 0x8000_0000
    ensures (n - r) % 0x1_0000_0000 == 0
  {
    (n + 0x8000_0000) % 0x1_0000_0000 - 0x8000_0000
  }

  /** Go's integer division: truncates toward zero. */
  function Quotient(a: int, b: int): int
    requires b != 0
  {
    if a >= 0 then (if b > 0 then a / b else -(a / -b))
    else (if b > 0 then -(-a / b) else -a / -b)
  }
}
